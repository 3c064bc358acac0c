/** The dashboard's figures: the branch-dependent revenue card and the constant cards and shares. */
module DashboardView {
  import opened Seqs
  import opened Types

  /** The fixed francs-per-euro factor applied to Cameroun figures. */
  const XafPerEuro := 655

  /**
   * A figure as `formatValue` builds it: the number handed to `toLocaleString` and the suffix
   * appended to its output.
   */
  datatype Figure = Figure(number: int, suffix: string)

  /** `formatValue`: Cameroun figures are scaled to francs, all others (Global too) stay in euros. */
  function FormatValue(val: int, sel: Branch): (r: Figure)
    ensures sel == Cameroun ==> r.number == val * XafPerEuro && r.suffix == " XAF"
    ensures sel != Cameroun ==> r.number == val && r.suffix == " €"
  {
    if sel == Cameroun then Figure(val * XafPerEuro, " XAF") else Figure(val, " €")
  }

  /** A stat card's value: a formatted figure or a fixed string. */
  datatype CardValue = Formatted(figure: Figure) | Fixed(text: string)

  datatype StatCard = StatCard(title: string, value: CardValue, change: string)

  /** The four stat cards, in the order shown. */
  function StatCards(sel: Branch): seq<StatCard> {
    [ StatCard("Chiffre d'affaires", Formatted(FormatValue(45280, sel)), "+12.5%"),
      StatCard("Prochains Mariages", Fixed("24"), "+2"),
      StatCard("Clients Actifs", Fixed("156"), "+8.2%"),
      StatCard("Note Moyenne", Fixed("4.9/5"), "+0.1") ]
  }

  /**
   * The revenue card is the only one formatted: for Cameroun it shows 29 658 400 with the XAF
   * suffix, elsewhere 45 280 with the euro suffix.
   */
  lemma RevenueCard(sel: Branch)
    ensures StatCards(sel)[0].value.Formatted?
    ensures sel == Cameroun ==> StatCards(sel)[0].value.figure == Figure(29658400, " XAF")
    ensures sel != Cameroun ==> StatCards(sel)[0].value.figure == Figure(45280, " €")
  {
  }

  /** The other three cards are fixed strings, the same for every branch. */
  lemma OtherCardsConstant(a: Branch, b: Branch)
    ensures |StatCards(a)| == |StatCards(b)| == 4
    ensures forall i :: 1 <= i < 4 ==> StatCards(a)[i].value.Fixed? && StatCards(a)[i] == StatCards(b)[i]
  {
  }

  datatype Share = Share(name: string, value: int)

  /** The segmentation pie. */
  function PieData(): seq<Share> {
    [Share("Mariages", 55), Share("Studio", 30), Share("Events", 15)]
  }

  function ShareValue(s: Share): int { s.value }

  /** The segmentation shares add up to a whole. */
  lemma PieSharesSumTo100()
    ensures SumOf(PieData(), ShareValue) == 100
  {
    var p := PieData();
    assert p[1..][1..][1..] == [];
  }
}
