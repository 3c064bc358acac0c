/** The staff directory: a constant staff list, narrowed by branch, then searched by name. */
module PersonnelView {
  import opened Options
  import opened Seqs
  import opened Text
  import opened Types
  import opened Filters

  function AlexRiva(): Staff {
    Staff("1", "Alex Riva", "Directeur Photo", Photographie, EnMission, France, StaffBusy, 98, 4.9, 142,
      "alex.r@marvelous.fr", "06 12 45 78 90",
      [Skill("Lumière", 95), Skill("Composition", 98)],
      [2, 2, 2, 2, 1, 0, 0],
      [MonthScore("Jan", 80), MonthScore("Fev", 85), MonthScore("Mar", 98)],
      None)
  }

  function SarahJ(): Staff {
    Staff("2", "Sarah J.", "Senior Editor", MontageVideo, Actif, France, StaffBusy, 95, 4.7, 89,
      "sarah.j@marvelous.fr", "06 98 76 54 32",
      [Skill("Premiere Pro", 99), Skill("Etalonnage", 92)],
      [1, 1, 2, 2, 2, 2, 0],
      [MonthScore("Jan", 88), MonthScore("Fev", 90), MonthScore("Mar", 95)],
      Some(-2))
  }

  function SamuelNdjock(): Staff {
    Staff("5", "Samuel Ndjock", "Chef Opérateur", Cadrage, EnMission, Cameroun, StaffBusy, 96, 4.8, 110,
      "samuel.n@marvelous.cm", "+237 699 00 11 22",
      [Skill("Drone 6K", 95), Skill("Live stream", 90)],
      [2, 2, 1, 1, 2, 2, 0],
      [MonthScore("Jan", 85), MonthScore("Fev", 90), MonthScore("Mar", 96)],
      None)
  }

  function FideleTagne(): Staff {
    Staff("6", "Fidèle Tagne", "Visagiste de Luxe", MakeUp, Actif, Cameroun, StaffAvailable, 94, 4.6, 75,
      "fidele.t@marvelous.cm", "+237 677 88 99 00",
      [Skill("Maquillage Mariée", 98), Skill("Coiffure", 92)],
      [0, 0, 1, 1, 2, 2, 2],
      [MonthScore("Jan", 82), MonthScore("Fev", 88), MonthScore("Mar", 94)],
      None)
  }

  /** The sample staff list, the only source of staff records. */
  function StaffMembers(): seq<Staff> {
    [AlexRiva(), SarahJ(), SamuelNdjock(), FideleTagne()]
  }

  /** `filteredStaff`: the whole list under Global, else the members tagged with the branch. */
  function FilteredStaff(sel: Branch): seq<Staff> {
    ByBranchOrAll(StaffMembers(), StaffBranch, sel)
  }

  /** The directory shown by `renderAnnuaire`: the search applied after the branch filter. */
  function Annuaire(sel: Branch, query: string, lower: string -> string): seq<Staff> {
    NameSearch(FilteredStaff(sel), StaffName, query, lower)
  }

  /** With branch Global, `filteredStaff` is the whole sample list in the same order. */
  lemma GlobalShowsEveryone()
    ensures FilteredStaff(Global) == StaffMembers()
  {
  }

  /**
   * With a concrete branch every member shown has that branch, the order is the sample list's,
   * and each matching member appears exactly as often as in the sample list.
   */
  lemma BranchShowsItsMembers(sel: Branch)
    requires sel != Global
    ensures forall i :: 0 <= i < |FilteredStaff(sel)| ==> StaffBranch(FilteredStaff(sel)[i]) == sel
    ensures IsSubseq(FilteredStaff(sel), StaffMembers())
    ensures forall m :: multiset(FilteredStaff(sel))[m] ==
                        if StaffBranch(m) == sel then multiset(StaffMembers())[m] else 0
  {
    ByBranchOrAllConcrete(StaffMembers(), StaffBranch, sel);
  }

  /**
   * Every member the search shows has a lower-cased name containing the lower-cased query, every
   * branch member whose name matches is shown, and the result keeps the order of both
   * `filteredStaff` and the sample list.
   */
  lemma AnnuaireMatchesQuery(sel: Branch, query: string, lower: string -> string)
    ensures forall i :: 0 <= i < |Annuaire(sel, query, lower)| ==>
              Contains(lower(StaffName(Annuaire(sel, query, lower)[i])), lower(query))
    ensures forall i :: 0 <= i < |FilteredStaff(sel)| && Contains(lower(StaffName(FilteredStaff(sel)[i])), lower(query)) ==>
              FilteredStaff(sel)[i] in Annuaire(sel, query, lower)
    ensures IsSubseq(Annuaire(sel, query, lower), FilteredStaff(sel))
    ensures IsSubseq(Annuaire(sel, query, lower), StaffMembers())
  {
    SearchAfterBranchIsSubseq(StaffMembers(), StaffBranch, sel, StaffName, query, lower);
  }

  /** An empty search keeps every branch-filtered member. */
  lemma EmptySearchKeepsBranch(sel: Branch, lower: string -> string)
    requires lower("") == ""
    ensures Annuaire(sel, "", lower) == FilteredStaff(sel)
  {
    EmptyQueryKeepsAll(FilteredStaff(sel), StaffName, lower);
  }

  /** The sample list has two France members (ids 1, 2) and two Cameroun members (ids 5, 6). */
  lemma SampleBranches()
    ensures FilteredStaff(France) == [AlexRiva(), SarahJ()]
    ensures FilteredStaff(Cameroun) == [SamuelNdjock(), FideleTagne()]
    ensures AlexRiva().id == "1" && SarahJ().id == "2"
    ensures SamuelNdjock().id == "5" && FideleTagne().id == "6"
  {
    FranceMembers();
    CamerounMembers();
  }

  lemma FranceMembers()
    ensures FilteredStaff(France) == [AlexRiva(), SarahJ()]
  {
    var s := StaffMembers();
    var fr := x => StaffBranch(x) == France;
    assert s[1..][1..][1..][1..] == [];
    FilterKeepingNone(s[1..][1..], fr);
  }

  lemma CamerounMembers()
    ensures FilteredStaff(Cameroun) == [SamuelNdjock(), FideleTagne()]
  {
    var s := StaffMembers();
    var cm := x => StaffBranch(x) == Cameroun;
    assert s[1..][1..][1..][1..] == [];
    FilterKeepingAll(s[1..][1..], cm);
  }
}
