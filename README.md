# La Maison Marvelous manager — a Dafny model of its data logic

The dashboard serves a wedding and photography business with two branches, France and Cameroun.
A selector outside them, Global, is the consolidated view. Most of the application is layout.
This project models the logic behind that layout and proves what it does:

- **Branch filter.** Global keeps every record; a concrete branch keeps exactly the records tagged with it, in order.
  Personnel, Studio and the project fallback each write this by hand; here it is one generic filter (`Filters.ByBranch`).
  The filter is proved once and used for every record kind.
- **Sample data.** The staff list, the studio inventory and sessions, the mock projects, the marketing posts,
  templates and ROI figures, and the initial notifications.
- **Project fetch.** The query is narrowed by branch. Rows are mapped (`client_name` into `clientName`; absent
  `tasks` become `[]`). An empty or failed answer falls back to the branch-filtered mock list. `loading` is
  cleared on every path. The remote store is an abstract outcome, `Failed(message) | Ok(data)`.
- **Customer fetch.** No fallback: an error records its message and keeps the previous list.
  The error message is cleared when a fetch starts.
- **Display decisions.** Dashboard revenue is scaled by 655 with an ` XAF` suffix, or left unscaled with ` €`.
  A project budget is shown in XAF with no decimals, or in EUR. Also modelled: the status filter,
  the case-insensitive name searches, the equipment status style and the utilisation figure.
- **Generation requests.** Each insight function turns an SDK outcome into a string: the text, a fixed default,
  or a fixed error message. The two marketing handlers have a blank-prompt guard and independent busy flags.
- **Shell and settings state.** Theme toggling. Theme and branch persistence, with local storage as a map
  from key to string. The view dispatch, the header label and the unread badge. Field-wise configuration edits.
  The configuration saved and loaded as JSON, with a proved round trip. The repository connection check.

The records of `types.ts` are datatypes, and their shapes carry the source's promises:
- `Branch` has exactly three values, and the same type tags stored records.
- A project always has a `budget` and a `tasks` list, which may be empty.
- Equipment `assignedTo` and `currentProject` are `Option`s, while its `branch` is required.
- Posts, templates and ROI rows have no branch field.
- Every notification has a `read` flag.

Views whose state changes step by step are classes:
- `ProjectsView`, `CustomersView`, `MarketingPanel`, `Shell`, `SettingsPanel` and `LocalStorage`.
- Each asynchronous handler is split at its `await`, or at its timer, into a `Start…` and a `Finish…` method.
  This makes the state in between (loading or busy) observable.

The remote store, the SDK, the timer and the browser's storage contents are parameters.

Behaviours of the code the model keeps:
- A failed project fetch records no user-visible error; it only logs a warning.
- The customer view has no sample-data fallback.
- A fetch has no supersession guard or generation counter; an effect simply re-runs the fetch when the branch changes.
- A stored branch is not checked against Global.
- The dashboard scales Cameroun amounts by 655, but the project budget display converts nothing. It only picks the currency.
- An empty success and a failure of the project fetch are indistinguishable in the state.

## Model

| member | source | states |
|---|---|---|
| Types.BranchNamed | types.ts:2 | a name parsed as a branch is the name of that branch |
| Types.Branches | types.ts:2 | the branch selector lists three distinct values |
| Types.BranchListed | types.ts:2 | every branch is in that list, so the set is closed |
| Types.BranchNameRoundTrip | types.ts:2 | a branch's name parses back to the branch |
| Types.ThemeNamed | types.ts:4 | a name parsed as a theme is the name of that theme |
| Types.ThemeNameRoundTrip | types.ts:4 | a theme's name parses back to the theme |
| Types.ProjectStatuses | types.ts:18 | there are exactly five distinct project statuses |
| Types.ProjectStatusListed | types.ts:18 | every project status is one of those five |
| Types.TaskStatuses | types.ts:19 | there are exactly three distinct task statuses |
| Types.TaskStatusListed | types.ts:19 | every task status is one of those three |
| Types.EquipmentStatuses | types.ts:23 | there are exactly four distinct equipment statuses |
| Types.EquipmentStatusListed | types.ts:23 | every equipment status is Available, In Use, Maintenance or Broken |
| Seqs.Filter | components/Personnel.tsx:59 | every kept element is in the input and satisfies the predicate; every satisfying input element is kept |
| Seqs.SubseqRefl | components/Personnel.tsx:57-58 | a list is a subsequence of itself |
| Seqs.SubseqTrans | components/Personnel.tsx:63-64 | subsequence is transitive, so filtering after filtering stays in order |
| Seqs.FilterIsSubseq | components/Personnel.tsx:59 | filtering keeps the relative order of the input |
| Seqs.FilterMultiset | components/Personnel.tsx:59 | filtering keeps each satisfying element exactly as often as it occurs and drops all others |
| Seqs.FilterKeepingAll | components/Studio.tsx:32 | a predicate that holds everywhere keeps the whole list |
| Seqs.FilterKeepingNone | components/Studio.tsx:32 | a predicate that holds nowhere keeps nothing |
| Seqs.FilterAgreeing | components/Personnel.tsx:57-59 | predicates that agree on the list filter it the same way |
| Seqs.Map | components/Weddings.tsx:69-73 | a mapped list has the same length and each element is the image of the element at its index |
| Seqs.SumOf | components/Marketing.tsx:302 | the sum over a list; `MarketingView.RoiTotalsMatchDisplay` shows it gives the totals printed at lines 302 and 314 |
| Text.Contains | components/Personnel.tsx:64 | `includes`: the needle starts the string or is contained in its tail; `ContainsAt` proves every occurrence makes it hold and `ContainsHasOccurrence` that it holds only at an occurrence |
| Text.EmptyIsContained | components/Personnel.tsx:64 | every string contains the empty string |
| Text.ContainsInfix | components/Settings.tsx:35 | a string contains any of its infixes |
| Text.ContainsAt | components/Settings.tsx:35 | a needle found at a position is contained |
| Text.ContainsHasOccurrence | components/Settings.tsx:35 | a string that includes the needle has it at some position, so `includes` holds exactly when the needle occurs |
| Text.TrimStart | components/Marketing.tsx:52 | what is removed is blank, what remains is a suffix and starts with a non-whitespace character |
| Text.TrimEnd | components/Marketing.tsx:52 | what is removed is blank, what remains is a prefix and ends with a non-whitespace character |
| Text.Trim | components/Marketing.tsx:52 | `trim`: both ends stripped of whitespace; `TrimStart`, `TrimEnd` and `TrimEmptyIffBlank` state what is removed and when nothing remains |
| Text.TrimEmptyIffBlank | components/Marketing.tsx:52 | trimming gives the empty string exactly when the string is all whitespace |
| Filters.ByBranch | components/Studio.tsx:32-33 | the result holds exactly the input records in the selected branch (any branch under Global) |
| Filters.ByBranchOrAll | components/Personnel.tsx:57-59 | the `Global ? all : filter` form of the branch filter; `SelectorFormsAgree` proves it equal to `ByBranch` and `ByBranchOrAllConcrete` states what it keeps |
| Filters.SelectorFormsAgree | components/Personnel.tsx:57-59 | the `Global ? all : filter` form equals the `Global or equal` filter form |
| Filters.ByBranchGlobal | components/Personnel.tsx:57-58 | under Global the filter returns the whole list, in the same order |
| Filters.ByBranchConcrete | components/Personnel.tsx:59 | under a branch every kept record has it, order is kept, and each matching record is kept as often as it occurs |
| Filters.ByBranchOrAllConcrete | components/Personnel.tsx:57-59 | the same concrete-branch facts for the `Global ? all : filter` form |
| Filters.ByBranchIsSubseq | components/Weddings.tsx:76 | both forms of the filter keep the input's order |
| Filters.ByBranchOfNarrowed | components/Weddings.tsx:60-62 | a list already narrowed to the branch is left as it is |
| Filters.ByBranchIdempotent | components/Studio.tsx:32 | filtering twice by the same branch is filtering once |
| Filters.NameSearch | components/Personnel.tsx:64 | the result holds exactly the records whose lowered name contains the lowered query |
| Filters.NameSearchIsSubseq | components/Personnel.tsx:63-64 | the search keeps the order of the list it searches |
| Filters.SearchAfterBranchIsSubseq | components/Personnel.tsx:63-64 | a search after the branch filter is a subsequence of the filtered list and of the whole list |
| Filters.EmptyQueryKeepsAll | components/Personnel.tsx:64 | an empty query keeps every record |
| Remote.BranchQuery | components/Weddings.tsx:55-62 | the query names its table and columns, and has a branch predicate exactly when the branch is not Global, equal to that branch |
| Remote.HonouredRowsNeedNoFilter | components/Weddings.tsx:60-62 | rows a store returns under the query's predicate are already in the branch |
| PersonnelView.StaffMembers | components/Personnel.tsx:17-51 | the four sample staff records; `SampleBranches` states their branches |
| PersonnelView.FilteredStaff | components/Personnel.tsx:57-59 | `filteredStaff`; `GlobalShowsEveryone` and `BranchShowsItsMembers` state what each selector keeps |
| PersonnelView.Annuaire | components/Personnel.tsx:63-64 | the directory search over `filteredStaff`; `AnnuaireMatchesQuery` and `EmptySearchKeepsBranch` state what it shows |
| PersonnelView.GlobalShowsEveryone | components/Personnel.tsx:57-58 | under Global the staff view is the whole sample list, in order |
| PersonnelView.BranchShowsItsMembers | components/Personnel.tsx:59 | under a branch every member shown has it, order is kept, and the count is the number of matching members |
| PersonnelView.AnnuaireMatchesQuery | components/Personnel.tsx:63-64 | the directory shows exactly the branch members whose lowered name contains the lowered query, as a subsequence of the branch list and of the sample list |
| PersonnelView.EmptySearchKeepsBranch | components/Personnel.tsx:64 | an empty query shows every branch member |
| PersonnelView.SampleBranches | components/Personnel.tsx:17-51 | France has members 1 and 2, Cameroun has members 5 and 6 |
| PersonnelView.FranceMembers | components/Personnel.tsx:18-34 | France shows Alex Riva and Sarah J., in that order |
| PersonnelView.CamerounMembers | components/Personnel.tsx:35-50 | Cameroun shows Samuel Ndjock and Fidèle Tagne, in that order |
| StudioView.GetInventory | components/Studio.tsx:18-23 | the four sample items whatever the branch; `ListsIgnoreBranch` proves the argument unused |
| StudioView.GetSessions | components/Studio.tsx:25-28 | the two sample sessions whatever the branch; `ListsIgnoreBranch` proves the argument unused |
| StudioView.Inventory | components/Studio.tsx:32 | `inventory`, the list narrowed by branch; `InventoryByBranch` states what each selector shows |
| StudioView.Sessions | components/Studio.tsx:33 | `sessions`, the list narrowed by branch; `SessionsByBranch` states what each selector shows |
| StudioView.ListsIgnoreBranch | components/Studio.tsx:18-28 | the inventory and session lists do not depend on the branch argument |
| StudioView.InventoryByBranch | components/Studio.tsx:32 | Global shows all four items; a branch shows only its items; France and Cameroun get two each |
| StudioView.FranceInventory | components/Studio.tsx:18-20 | France sees the Sony A7R V and the Mavic 3 Pro |
| StudioView.CamerounInventory | components/Studio.tsx:21-22 | Cameroun sees the Red Komodo and the Profoto kit |
| StudioView.SessionsByBranch | components/Studio.tsx:33 | Global shows both sessions; a branch shows only its own |
| StudioView.BranchSessions | components/Studio.tsx:25-28 | France sees the Julie Verne session, Cameroun the Famille Ewane one |
| StudioView.StatusStyle | components/Studio.tsx:35-42 | `getStatusStyle`'s switch with its default; `StatusStylesDistinct` proves the styles distinct and the default Broken's alone |
| StudioView.StatusStylesDistinct | components/Studio.tsx:35-42 | the four statuses get four distinct styles, and only Broken gets the default one |
| StudioView.UtilisationStat | components/Studio.tsx:48 | the figure is 92% exactly for Cameroun and 82% otherwise, Global included |
| StudioView.AssignmentLine | components/Studio.tsx:72-76 | the assignee and project line exists exactly for items in use, and shows their two fields |
| StudioView.SampleAssignmentLines | components/Studio.tsx:18-23 | the two sample items in use show their assignee and project |
| WeddingsView.ProjectsQuery | components/Weddings.tsx:55-62 | the projects query selects projects with their tasks, narrowed by branch exactly when the branch is not Global |
| WeddingsView.MapRow | components/Weddings.tsx:69-73 | `clientName` comes from `client_name` when truthy, else from `clientName`; absent tasks become `[]`; every other field is copied |
| WeddingsView.MapRows | components/Weddings.tsx:69-74 | one project per row, same length and order |
| WeddingsView.Fallback | components/Weddings.tsx:76 | the mock list narrowed by branch; `SampleFallback` states what each selector gets |
| WeddingsView.ProjectsAfter | components/Weddings.tsx:64-80 | the projects once a fetch settles; `NonEmptySuccessShowsRows`, `NoRowsFallsBack`, `NeverMixed` and `ShownProjectsInBranch` state its cases |
| WeddingsView.NonEmptySuccessShowsRows | components/Weddings.tsx:68-74 | a success with rows shows the rows mapped one for one |
| WeddingsView.NoRowsFallsBack | components/Weddings.tsx:75-80 | an empty success, a null success and a failure all show the branch-filtered mock list |
| WeddingsView.NeverMixed | components/Weddings.tsx:68-80 | the projects are either all from the mock list or exactly the mapped rows |
| WeddingsView.ShownProjectsInBranch | components/Weddings.tsx:60-80 | with a store that honours the predicate, every project shown is in the selected branch |
| WeddingsView.SampleFallback | components/Weddings.tsx:14-41 | the mock list gives Rambouillet for France, Douala for Cameroun, both for Global |
| WeddingsView.FormatCurrency | components/Weddings.tsx:86-91 | XAF, fr-CM and no decimals exactly for Cameroun; EUR and fr-FR otherwise; the amount is not converted |
| WeddingsView.BudgetShown | components/Weddings.tsx:189 | the amount shown is the project's own budget, unconverted, in XAF exactly when the project is in Cameroun |
| WeddingsView.SampleBudgets | components/Weddings.tsx:189 | the Douala budget shows 2500000 in XAF without decimals, Rambouillet's in euros |
| WeddingsView.FilteredProjects | components/Weddings.tsx:102-104 | `filteredProjects`; `AllFilterIsIdentity` and `StatusFilterKeepsStatus` state what each filter keeps |
| WeddingsView.FilterButtons | components/Weddings.tsx:130 | the status filter buttons; `FilterButtonsDistinct` states there are four distinct ones, All first, none for Confirmed or Delivered |
| WeddingsView.FilterButtonsDistinct | components/Weddings.tsx:130 | four distinct buttons, All first; Confirmed and Delivered have no button |
| WeddingsView.AllFilterIsIdentity | components/Weddings.tsx:102-103 | the All filter shows every project |
| WeddingsView.StatusFilterKeepsStatus | components/Weddings.tsx:104 | a status filter keeps exactly the projects with that status, in order, each as often as it occurs |
| WeddingsView.ProjectsView.constructor | components/Weddings.tsx:44-46 | no projects, loading, every status |
| WeddingsView.ProjectsView.StartFetch | components/Weddings.tsx:54-62 | loading is set and the query is the branch-narrowed projects query |
| WeddingsView.ProjectsView.FinishFetch | components/Weddings.tsx:64-83 | projects become the reconciled outcome and loading is cleared on every path; no other field changes |
| WeddingsView.ProjectsView.SetFilter | components/Weddings.tsx:133 | the active filter is the one clicked |
| WeddingsView.ProjectsView.Visible | components/Weddings.tsx:102-104 | `filteredProjects` over the view's state; `AllFilterIsIdentity` and `StatusFilterKeepsStatus` state what each filter keeps |
| CrmView.CustomersQuery | components/CRM.tsx:31-35 | the customers query is narrowed by branch exactly when the branch is not Global |
| CrmView.CustomersAfter | components/CRM.tsx:37-41 | returned data replaces the list wholesale; an error or null data keeps the previous list |
| CrmView.ErrorAfter | components/CRM.tsx:38-41 | an error message is recorded exactly on failure, and it is the failure's message |
| CrmView.ErrorKeepsCustomers | components/CRM.tsx:38-41 | whenever an error is recorded the customer list is unchanged |
| CrmView.NoFallback | components/CRM.tsx:37-41 | the list is either the previous one or the returned rows, never sample data |
| CrmView.SearchCustomers | components/CRM.tsx:84-85 | the result holds exactly the customers whose lowered name contains the lowered query |
| CrmView.SearchCustomersProperties | components/CRM.tsx:84-85 | an empty query keeps everyone, and the search keeps the list's order |
| CrmView.CustomersView.constructor | components/CRM.tsx:17-21 | no customers, loading, no selection, empty search and no error |
| CrmView.CustomersView.StartFetch | components/CRM.tsx:29-35 | loading is set, the error is cleared, the query is the branch-narrowed customers query |
| CrmView.CustomersView.FinishFetch | components/CRM.tsx:37-44 | customers follow `CustomersAfter`, the error is `ErrorAfter` on failure and otherwise unchanged (`StartFetch` cleared it), loading is cleared |
| CrmView.CustomersView.Select | components/CRM.tsx:89 | the selected customer is exactly the one clicked |
| CrmView.CustomersView.SetSearchQuery | components/CRM.tsx:56 | the query is what was typed |
| CrmView.CustomersView.Display | components/CRM.tsx:74-85 | skeleton exactly while loading, the empty notice exactly when loaded and empty, otherwise the searched list |
| CrmView.SelectedIsHighlighted | components/CRM.tsx:91 | the selected customer is highlighted |
| CrmView.CustomersView.IsHighlighted | components/CRM.tsx:91 | the card highlight, an id comparison with the selection; `SelectedIsHighlighted` shows the clicked customer is highlighted |
| DashboardView.FormatValue | components/Dashboard.tsx:49-52 | Cameroun gives the value times 655 with ` XAF`; France and Global give the value with ` €` |
| DashboardView.StatCards | components/Dashboard.tsx:72-75 | the four stat cards; `RevenueCard` and `OtherCardsConstant` state their values |
| DashboardView.RevenueCard | components/Dashboard.tsx:72 | the revenue card is formatted, showing 29658400 XAF for Cameroun and 45280 € otherwise |
| DashboardView.OtherCardsConstant | components/Dashboard.tsx:72-75 | there are four cards, and the other three show fixed text that does not depend on the branch |
| DashboardView.PieSharesSumTo100 | components/Dashboard.tsx:24-28 | the segmentation shares sum to 100 |
| GeminiService.Absorb | services/geminiService.ts:16-20 | a failure gives the error string, truthy text is returned as is, empty or missing text gives the default |
| GeminiService.MarketingIdeasRequest | services/geminiService.ts:9-15 | the request uses the model, temperature 0.7 and the topic inside the prompt |
| GeminiService.MarketingIdeas | services/geminiService.ts:6-20 | never empty; the text verbatim, else the default, or on failure the fixed error |
| GeminiService.PerformanceInsightsRequest | services/geminiService.ts:26-32 | the request uses the model, temperature 0.5 and the data after the prompt |
| GeminiService.PerformanceInsights | services/geminiService.ts:23-37 | never empty; the text verbatim, else the default, or on failure the fixed error |
| GeminiService.HashtagsRequest | services/geminiService.ts:43-49 | the request uses the model, temperature 0.6 and the description inside the prompt |
| GeminiService.Hashtags | services/geminiService.ts:40-54 | never empty; the text verbatim, else the default, or on failure the fixed error |
| GeminiService.PromptsEmbedInput | services/geminiService.ts:11 | each prompt contains the caller's input |
| GeminiService.FixedStringsDistinct | services/geminiService.ts:16-19 | each kind's default and error strings differ, so the two paths can be told apart |
| MarketingView.RoiTotalsMatchDisplay | components/Marketing.tsx:34-40 | the monthly ad spend sums to 3300 and the revenue to 27000, the totals printed at lines 302 and 314 |
| MarketingView.DataIgnoresBranch | components/Marketing.tsx:42 | posts, templates and ROI figures are the same for every branch |
| MarketingView.SubmitDisabled | components/Marketing.tsx:84 | the buttons' `disabled` guard; `GuardsDisagreeOnWhitespace` relates it to the handler's guard |
| MarketingView.HandlerIgnores | components/Marketing.tsx:52 | the handlers' early return on a blank prompt; `TrimEmptyIffBlank` makes it exactly the all-whitespace prompts, and `StartStrategy` and `StartHashtags` change nothing under it |
| MarketingView.GuardsDisagreeOnWhitespace | components/Marketing.tsx:52 | a whitespace-only prompt leaves the button enabled though the handler ignores it; a disabled idle button means an ignored prompt |
| MarketingView.MarketingPanel.StrategyButtonDisabled | components/Marketing.tsx:84 | the strategy button's `disabled` guard on the panel's state; `GuardsDisagreeOnWhitespace` relates it to the handler's guard |
| MarketingView.MarketingPanel.HashtagButtonDisabled | components/Marketing.tsx:242 | the hashtag button's `disabled` guard on the panel's state; `GuardsDisagreeOnWhitespace` relates it to the handler's guard |
| MarketingView.MarketingPanel.constructor | components/Marketing.tsx:44-49 | empty prompts and results, neither kind busy |
| MarketingView.MarketingPanel.EditPrompt | components/Marketing.tsx:78 | the prompt is what was typed |
| MarketingView.MarketingPanel.EditHashtagPrompt | components/Marketing.tsx:236 | the hashtag prompt is what was typed |
| MarketingView.MarketingPanel.StartStrategy | components/Marketing.tsx:51-54 | a blank prompt changes nothing and sends nothing; otherwise busy is set and the prompt's request is sent; hashtag state is untouched |
| MarketingView.MarketingPanel.FinishStrategy | components/Marketing.tsx:55-56 | the result is the service's string (never empty) and busy is cleared; hashtag state is untouched |
| MarketingView.MarketingPanel.StartHashtags | components/Marketing.tsx:59-62 | a blank prompt changes nothing and sends nothing; otherwise busy is set and the request is sent; strategy state is untouched |
| MarketingView.MarketingPanel.FinishHashtags | components/Marketing.tsx:63-64 | the result is the service's string (never empty) and busy is cleared; strategy state is untouched |
| Storage.Lookup | App.tsx:37 | a value is found exactly when the key is stored, and it is the stored value |
| Storage.LookupAfterWrite | App.tsx:47 | a written key reads back its value, other keys are unchanged |
| Storage.LocalStorage.constructor | App.tsx:37 | the storage starts with the given contents |
| Storage.LocalStorage.SetItem | App.tsx:47 | the key is set to the value and nothing else changes |
| AppShell.Toggled | App.tsx:32-34 | toggling always changes the theme |
| AppShell.ToggleTwice | App.tsx:32-34 | toggling twice is the identity |
| AppShell.WrittenValuesAreRestored | App.tsx:36-52 | a theme or branch the shell writes is the one the next start restores, and writes keep the storage well formed |
| AppShell.InSyncRestores | App.tsx:36-41 | storage in sync with the shell restores exactly its theme and branch |
| AppShell.StoredTheme | App.tsx:37-38 | the theme restored when one is stored; `WrittenValuesAreRestored` and `InSyncRestores` prove it reads back what the shell writes |
| AppShell.StoredBranch | App.tsx:39-40 | the branch restored when one is stored; `WrittenValuesAreRestored` and `InSyncRestores` prove it reads back what the shell writes |
| AppShell.Dispatch | App.tsx:76-88 | `renderView`'s switch on the view name; `UnknownViewFallsBack` states its default |
| AppShell.RenderView | App.tsx:76-88 | the screen for the active view; `RenderViewPassesBranch` states which screen and branch each view gets |
| AppShell.RenderViewPassesBranch | App.tsx:76-88 | every view but settings gets the current branch, and each view renders its own screen |
| AppShell.UnknownViewFallsBack | App.tsx:86 | a name that is no view renders the dashboard with the current branch |
| AppShell.HeaderLabel | App.tsx:163 | the header's branch label; `HeaderLabelsDistinct` proves the labels distinct and only Global's consolidated |
| AppShell.HeaderLabelsDistinct | App.tsx:163 | each branch has its own label, and only Global reads as the consolidated view |
| AppShell.HasUnread | App.tsx:181 | `some(n => !n.read)`; `UnreadIndicator` proves it equivalent to a positive `UnreadCount` |
| AppShell.UnreadCount | App.tsx:181 | the number of unread notifications, the counting reference that `UnreadIndicator` ties to the badge |
| AppShell.UnreadIndicator | App.tsx:181 | the badge shows exactly when the unread count is positive |
| AppShell.InitialUnread | App.tsx:26-30 | the initial list has two unread notifications, so the badge shows |
| AppShell.Shell.constructor | App.tsx:20-30 | dashboard, Global, light theme and the three sample notifications |
| AppShell.Shell.Mount | App.tsx:36-52 | a stored theme or branch replaces the default only when one is stored; storage then holds the current theme and branch |
| AppShell.Shell.ToggleTheme | App.tsx:32-34 | the theme flips and storage holds the new theme |
| AppShell.Shell.SelectBranch | App.tsx:140 | the branch is the one chosen; storage is written only when it changed and then holds it |
| AppShell.Shell.ShowView | App.tsx:107 | the active view is the one clicked |
| AppShell.Shell.CurrentScreen | App.tsx:76-88 | the screen for the shell's active view and branch; `RenderViewPassesBranch` states which screen and branch each view gets |
| AppShell.Shell.Header | App.tsx:163 | the header label for the shell's branch; `HeaderLabelsDistinct` proves the labels distinct and only Global's consolidated |
| AppShell.Shell.UnreadBadge | App.tsx:181 | the badge over the shell's notifications; `UnreadIndicator` shows it exactly when some notification is unread |
| AppShell.NavItems | App.tsx:66-74 | seven distinct navigation items, dashboard first, holding every view but settings |
| Json.HexValue | components/Settings.tsx:23 | a parsed hex digit is below 16 |
| Json.HexRoundTrip | components/Settings.tsx:27 | a written hex digit parses back to its value |
| Json.EscapeChar | components/Settings.tsx:27 | each escaped character is one to six characters long and never starts with a quote |
| Json.ParseUnit | components/Settings.tsx:23 | a parsed unit consumes at least one character and no more than the input |
| Json.Expect | components/Settings.tsx:23 | the input is the expected text followed by what remains |
| Json.ExpectRoundTrip | components/Settings.tsx:23 | fixed text followed by anything is read, leaving what follows |
| Json.BoolRoundTrip | components/Settings.tsx:23-27 | a written boolean reads back, whatever follows it |
| Json.UnitRoundTrip | components/Settings.tsx:23-27 | each escaped character reads back as itself, whatever follows it |
| Json.CharsRoundTrip | components/Settings.tsx:23-27 | an escaped string body and its closing quote read back as the string |
| Json.StringRoundTrip | components/Settings.tsx:23-27 | a quoted string reads back as itself, whatever follows it |
| SettingsView.EncodeConfig | components/Settings.tsx:27 | `JSON.stringify` of the configuration; `ConfigRoundTrip` proves `DecodeConfig` reads it back |
| SettingsView.DecodeConfig | components/Settings.tsx:23 | `JSON.parse` of the stored text; `ConfigRoundTrip` proves it inverts `EncodeConfig` |
| SettingsView.ConfigRoundTrip | components/Settings.tsx:23-27 | every configuration reads back from its JSON text |
| SettingsView.SavedConfigIsLoaded | components/Settings.tsx:22-27 | the configuration saved is the one the next load restores, and saving keeps the storage well formed |
| SettingsView.Edited | components/Settings.tsx:107 | the edited field takes the value and every other field is unchanged |
| SettingsView.CheckOutcome | components/Settings.tsx:35 | connected exactly when the URL contains github.com, error otherwise |
| SettingsView.DefaultRepoConnects | components/Settings.tsx:12 | the default repository URL passes the check |
| SettingsView.SettingsPanel.constructor | components/Settings.tsx:10-19 | the default configuration, not checking, status idle |
| SettingsView.SettingsPanel.Load | components/Settings.tsx:21-24 | a stored configuration replaces the current one only when one is stored |
| SettingsView.SettingsPanel.Save | components/Settings.tsx:26-29 | the configuration's JSON goes under its key, and that storage loads back the configuration |
| SettingsView.SettingsPanel.Edit | components/Settings.tsx:132 | the configuration is the previous one with the edited field changed |
| SettingsView.SettingsPanel.StartCheck | components/Settings.tsx:31-33 | checking is set, so the button is disabled, and the current URL is what the check tests |
| SettingsView.SettingsPanel.FinishCheck | components/Settings.tsx:33-36 | checking is cleared, the button is enabled, the status is the outcome for the URL, and the configuration is unchanged |

## Left out

- components/Performance.tsx: its chart data and floating-point KPI ratios are layout, and its one insight call is `GeminiService.PerformanceInsights`.
- services/offlineService.ts and services/supabaseClient.ts are not part of this model. The remote store is an abstract outcome.
- Server-side ordering of rows by date (components/Weddings.tsx:58) and by name (components/CRM.tsx:31) is not modelled. Outcomes are taken in the order given.
- `Intl.NumberFormat` and `toLocaleString` digit grouping: only the currency, locale, fraction digits, scale and suffix are modelled.
- `toLowerCase` is a parameter `lower` of the searches; Unicode case mapping is not modelled.
- The sync status, the online and offline listeners, the sidebar and notification-panel flags, and the studio, marketing and CRM tab state are not modelled. They carry no rules that the other views depend on.
- The dashboard chart data, React rendering, CSS classes, `alert`, `console` calls and the 1500 ms timer delay are left out. The timer is the split between `StartCheck` and `FinishCheck`.
- Row budgets are integers, so null, NaN and fractional budgets are not represented. A row with both client-name fields absent gets the empty string, which renders like `undefined`.
- `JSON.parse` is modelled only on the text `JSON.stringify` writes for the configuration. Whitespace, other property orders, other shapes and surrogate pairs in `\u` escapes are not accepted.
- Shell.Mount: requires the stored theme and branch, if present, to be valid names. The source casts the stored strings without checking them. `AppShell.WrittenValuesAreRestored` proves the shell's own writes keep that precondition.
- SettingsPanel.Load: requires a stored configuration, if present, to be JSON of a configuration. The source passes it to `JSON.parse` without a guard, and a parse error would throw at mount. `SettingsView.SavedConfigIsLoaded` proves saving keeps that precondition.
- PerformanceInsightsRequest: takes the `JSON.stringify` text of the staff data as its argument, rather than the data itself.
- Overlapping fetches are not ordered. Each `FinishFetch` applies its own outcome. The source has no guard against a stale answer.
- FormatValue: takes an integer where the source takes a JavaScript number. Its one call passes 45280, so fractional and NaN amounts are not modelled.
