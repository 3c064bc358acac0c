/** The studio view: constant equipment and session lists, narrowed by branch, and their display rules. */
module StudioView {
  import opened Options
  import opened Seqs
  import opened Types
  import opened Filters

  function SonyA7R(): Equipment {
    Equipment("e1", "Sony A7R V", Camera, InUse, "SN-7842-X", France, Some("Alex Riva"), Some("Mariage Paris"), None)
  }

  function MavicPro(): Equipment {
    Equipment("e2", "DJI Mavic 3 Pro", Drone, Available, "DRN-442-A", France, None, None, None)
  }

  function RedKomodo(): Equipment {
    Equipment("e5", "Red Komodo 6K", Camera, InUse, "RED-112-K", Cameroun, Some("Samuel Ndjock"), Some("Shooting Akwa"), None)
  }

  function ProfotoKit(): Equipment {
    Equipment("e6", "Kit Profoto B10X", Eclairage, Available, "LIT-221-Z", Cameroun, None, None, None)
  }

  function JulieVerne(): StudioSession {
    StudioSession("1", "Julie Verne", France, Maternite, "2024-06-18", "2h", "Alex Riva", SessionScheduled)
  }

  function FamilleEwane(): StudioSession {
    StudioSession("2", "Famille Ewane", Cameroun, Famille, "2024-06-19", "3h", "Samuel Ndjock", SessionScheduled)
  }

  /** `getInventory`: the branch argument is ignored, the list is always the same four items. */
  function GetInventory(branch: Branch): seq<Equipment> {
    [SonyA7R(), MavicPro(), RedKomodo(), ProfotoKit()]
  }

  /** `getSessions`: the branch argument is ignored, the list is always the same two sessions. */
  function GetSessions(branch: Branch): seq<StudioSession> {
    [JulieVerne(), FamilleEwane()]
  }

  /** Neither list depends on the branch it is asked for. */
  lemma ListsIgnoreBranch(a: Branch, b: Branch)
    ensures GetInventory(a) == GetInventory(b)
    ensures GetSessions(a) == GetSessions(b)
  {
  }

  /** `inventory`: the list narrowed by the branch filter. */
  function Inventory(sel: Branch): seq<Equipment> {
    ByBranch(GetInventory(sel), EquipmentBranch, sel)
  }

  /** `sessions`: the list narrowed by the branch filter. */
  function Sessions(sel: Branch): seq<StudioSession> {
    ByBranch(GetSessions(sel), SessionBranch, sel)
  }

  /**
   * Under Global the inventory is all four items; under a concrete branch every item shown has
   * that branch, and France and Cameroun each get their two items in list order.
   */
  lemma InventoryByBranch(sel: Branch)
    ensures |Inventory(Global)| == 4 && Inventory(Global) == GetInventory(sel)
    ensures sel != Global ==> forall i :: 0 <= i < |Inventory(sel)| ==> Inventory(sel)[i].branch == sel
    ensures Inventory(France) == [SonyA7R(), MavicPro()]
    ensures Inventory(Cameroun) == [RedKomodo(), ProfotoKit()]
  {
    ByBranchGlobal(GetInventory(sel), EquipmentBranch);
    if sel != Global {
      ByBranchConcrete(GetInventory(sel), EquipmentBranch, sel);
    }
    FranceInventory();
    CamerounInventory();
  }

  lemma FranceInventory()
    ensures Inventory(France) == [SonyA7R(), MavicPro()]
  {
    var s := GetInventory(France);
    assert s[1..][1..][1..][1..] == [];
    FilterKeepingNone(s[1..][1..], x => InBranch(EquipmentBranch(x), France));
  }

  lemma CamerounInventory()
    ensures Inventory(Cameroun) == [RedKomodo(), ProfotoKit()]
  {
    var s := GetInventory(Cameroun);
    assert s[1..][1..][1..][1..] == [];
    FilterKeepingAll(s[1..][1..], x => InBranch(EquipmentBranch(x), Cameroun));
  }

  /** Global gives both sessions; a concrete branch gives only its own. */
  lemma SessionsByBranch(sel: Branch)
    ensures Sessions(Global) == [JulieVerne(), FamilleEwane()]
    ensures sel != Global ==> forall i :: 0 <= i < |Sessions(sel)| ==> Sessions(sel)[i].branch == sel
    ensures Sessions(France) == [JulieVerne()]
    ensures Sessions(Cameroun) == [FamilleEwane()]
  {
    ByBranchGlobal(GetSessions(Global), SessionBranch);
    if sel != Global {
      ByBranchConcrete(GetSessions(sel), SessionBranch, sel);
    }
    BranchSessions();
  }

  lemma BranchSessions()
    ensures Sessions(France) == [JulieVerne()]
    ensures Sessions(Cameroun) == [FamilleEwane()]
  {
    var s := GetSessions(France);
    assert s[1..][1..] == [];
  }

  const AvailableStyle := "bg-emerald-50 text-emerald-600 border-emerald-100"
  const InUseStyle := "bg-indigo-50 text-indigo-600 border-indigo-100"
  const MaintenanceStyle := "bg-amber-50 text-amber-600 border-amber-100"
  const DefaultStyle := "bg-rose-50 text-rose-600 border-rose-100"

  /** `getStatusStyle`: a switch on three statuses with a default for the rest. */
  function StatusStyle(s: EquipmentStatus): string {
    match s
    case Available => AvailableStyle
    case InUse => InUseStyle
    case Maintenance => MaintenanceStyle
    case _ => DefaultStyle
  }

  /**
   * Every status gets a style; Available, In Use and Maintenance get styles of their own, and
   * the default (Broken's) is exactly the style no other status gets.
   */
  lemma StatusStylesDistinct(s: EquipmentStatus, t: EquipmentStatus)
    ensures StatusStyle(s) == StatusStyle(t) <==> s == t
    ensures StatusStyle(s) == DefaultStyle <==> s == Broken
  {
    assert |AvailableStyle| == 49 && |InUseStyle| == 46 && |MaintenanceStyle| == 43 && |DefaultStyle| == 40;
  }

  /** The "Utilisation Parc" figure. */
  function UtilisationStat(sel: Branch): (r: string)
    ensures r == "92%" <==> sel == Cameroun
    ensures r == "82%" <==> sel != Cameroun
  {
    if sel == Cameroun then "92%" else "82%"
  }

  /** The line `assignedTo • currentProject` under an item, present only when it is In Use. */
  function AssignmentLine(e: Equipment): (r: Option<(Option<string>, Option<string>)>)
    ensures r.Some? <==> e.status == InUse
    ensures r.Some? ==> r.value == (e.assignedTo, e.currentProject)
  {
    if e.status == InUse then Some((e.assignedTo, e.currentProject)) else None
  }

  /** In the sample inventory, exactly the in-use items have someone and a project on them. */
  lemma SampleAssignmentLines()
    ensures forall i :: 0 <= i < |GetInventory(Global)| ==>
              (AssignmentLine(GetInventory(Global)[i]).Some? <==>
               GetInventory(Global)[i].assignedTo.Some? && GetInventory(Global)[i].currentProject.Some?)
  {
  }
}
