/**
 * The branch filter that every view applies, and the case-insensitive name search of the staff
 * directory and the customer list. Both are instances of Seqs.Filter.
 */
module Filters {
  import opened Seqs
  import opened Text
  import opened Types

  /** The test the views apply: `branch === 'Global' || record.branch === branch`. */
  predicate InBranch(tag: Branch, sel: Branch) {
    sel == Global || tag == sel
  }

  /**
   * The branch filter over any record kind with a branch field: Global keeps everything, France
   * or Cameroun keeps exactly the records tagged with that branch, in order.
   */
  function ByBranch<T>(s: seq<T>, branchOf: T -> Branch, sel: Branch): (r: seq<T>)
    ensures forall i :: 0 <= i < |r| ==> r[i] in s && InBranch(branchOf(r[i]), sel)
    ensures forall i :: 0 <= i < |s| && InBranch(branchOf(s[i]), sel) ==> s[i] in r
  {
    Filter(s, x => InBranch(branchOf(x), sel))
  }

  /** The same rule written as `branch === 'Global' ? s : s.filter(x => x.branch === branch)`. */
  function ByBranchOrAll<T>(s: seq<T>, branchOf: T -> Branch, sel: Branch): seq<T> {
    if sel == Global then s else Filter(s, x => branchOf(x) == sel)
  }

  /** The two ways the views write the branch filter are the same function. */
  lemma SelectorFormsAgree<T>(s: seq<T>, branchOf: T -> Branch, sel: Branch)
    ensures ByBranchOrAll(s, branchOf, sel) == ByBranch(s, branchOf, sel)
  {
    var keep := x => InBranch(branchOf(x), sel);
    if sel == Global {
      FilterKeepingAll(s, keep);
    } else {
      FilterAgreeing(s, x => branchOf(x) == sel, keep);
    }
  }

  /** Under Global the filter is the identity: same elements, same order. */
  lemma ByBranchGlobal<T>(s: seq<T>, branchOf: T -> Branch)
    ensures ByBranch(s, branchOf, Global) == s
  {
    FilterKeepingAll(s, x => InBranch(branchOf(x), Global));
  }

  /**
   * Under a concrete branch the result is a subsequence of the input holding each record of that
   * branch as often as the input does and nothing else; so its length is the number of matching
   * records.
   */
  lemma ByBranchConcrete<T>(s: seq<T>, branchOf: T -> Branch, sel: Branch)
    requires sel != Global
    ensures forall i :: 0 <= i < |ByBranch(s, branchOf, sel)| ==> branchOf(ByBranch(s, branchOf, sel)[i]) == sel
    ensures IsSubseq(ByBranch(s, branchOf, sel), s)
    ensures forall x :: multiset(ByBranch(s, branchOf, sel))[x] ==
                        if branchOf(x) == sel then multiset(s)[x] else 0
  {
    var keep := x => InBranch(branchOf(x), sel);
    FilterIsSubseq(s, keep);
    FilterMultiset(s, keep);
  }

  /** The concrete-branch facts, stated for the `Global ? s : s.filter(...)` form. */
  lemma ByBranchOrAllConcrete<T>(s: seq<T>, branchOf: T -> Branch, sel: Branch)
    requires sel != Global
    ensures forall i :: 0 <= i < |ByBranchOrAll(s, branchOf, sel)| ==> branchOf(ByBranchOrAll(s, branchOf, sel)[i]) == sel
    ensures IsSubseq(ByBranchOrAll(s, branchOf, sel), s)
    ensures forall x :: multiset(ByBranchOrAll(s, branchOf, sel))[x] ==
                        if branchOf(x) == sel then multiset(s)[x] else 0
  {
    SelectorFormsAgree(s, branchOf, sel);
    ByBranchConcrete(s, branchOf, sel);
  }

  /** Whatever the selector, the filter only deletes records: the order of the input is kept. */
  lemma ByBranchIsSubseq<T>(s: seq<T>, branchOf: T -> Branch, sel: Branch)
    ensures IsSubseq(ByBranch(s, branchOf, sel), s)
    ensures IsSubseq(ByBranchOrAll(s, branchOf, sel), s)
  {
    FilterIsSubseq(s, x => InBranch(branchOf(x), sel));
    SelectorFormsAgree(s, branchOf, sel);
  }

  /** A sequence already narrowed to a branch is left unchanged by the branch filter. */
  lemma ByBranchOfNarrowed<T>(s: seq<T>, branchOf: T -> Branch, sel: Branch)
    requires forall i :: 0 <= i < |s| ==> branchOf(s[i]) == sel
    ensures ByBranch(s, branchOf, sel) == s
  {
    FilterKeepingAll(s, x => InBranch(branchOf(x), sel));
  }

  /** Filtering twice by the same branch is filtering once. */
  lemma ByBranchIdempotent<T>(s: seq<T>, branchOf: T -> Branch, sel: Branch)
    ensures ByBranch(ByBranch(s, branchOf, sel), branchOf, sel) == ByBranch(s, branchOf, sel)
  {
    var r := ByBranch(s, branchOf, sel);
    FilterKeepingAll(r, x => InBranch(branchOf(x), sel));
  }

  /**
   * `s.filter(x => lower(nameOf(x)).includes(lower(query)))`, with the lower-casing function a
   * parameter.
   */
  function NameSearch<T>(s: seq<T>, nameOf: T -> string, query: string, lower: string -> string): (r: seq<T>)
    ensures forall i :: 0 <= i < |r| ==> r[i] in s && Contains(lower(nameOf(r[i])), lower(query))
    ensures forall i :: 0 <= i < |s| && Contains(lower(nameOf(s[i])), lower(query)) ==> s[i] in r
  {
    Filter(s, x => Contains(lower(nameOf(x)), lower(query)))
  }

  /** The search only deletes entries: what it shows is in the order of its input. */
  lemma NameSearchIsSubseq<T>(s: seq<T>, nameOf: T -> string, query: string, lower: string -> string)
    ensures IsSubseq(NameSearch(s, nameOf, query, lower), s)
  {
    FilterIsSubseq(s, x => Contains(lower(nameOf(x)), lower(query)));
  }

  /** A search applied after the branch filter keeps the order of the unfiltered list. */
  lemma SearchAfterBranchIsSubseq<T>(s: seq<T>, branchOf: T -> Branch, sel: Branch, nameOf: T -> string,
                                     query: string, lower: string -> string)
    ensures IsSubseq(NameSearch(ByBranchOrAll(s, branchOf, sel), nameOf, query, lower), ByBranchOrAll(s, branchOf, sel))
    ensures IsSubseq(NameSearch(ByBranchOrAll(s, branchOf, sel), nameOf, query, lower), s)
  {
    var f := ByBranchOrAll(s, branchOf, sel);
    NameSearchIsSubseq(f, nameOf, query, lower);
    ByBranchIsSubseq(s, branchOf, sel);
    SubseqTrans(NameSearch(f, nameOf, query, lower), f, s);
  }

  /** An empty query keeps everyone, since lower-casing maps the empty string to itself. */
  lemma EmptyQueryKeepsAll<T>(s: seq<T>, nameOf: T -> string, lower: string -> string)
    requires lower("") == ""
    ensures NameSearch(s, nameOf, "", lower) == s
  {
    forall i | 0 <= i < |s| ensures Contains(lower(nameOf(s[i])), lower("")) {
      EmptyIsContained(lower(nameOf(s[i])));
    }
    FilterKeepingAll(s, x => Contains(lower(nameOf(x)), lower("")));
  }

  function StaffBranch(s: Staff): Branch { s.branch }
  function EquipmentBranch(e: Equipment): Branch { e.branch }
  function ProjectBranch(p: Project): Branch { p.branch }
  function CustomerBranch(c: Customer): Branch { c.branch }
  function SessionBranch(s: StudioSession): Branch { s.branch }
  function StudioClientBranch(c: StudioClient): Branch { c.branch }
  function ExpenseBranch(e: StudioExpense): Branch { e.branch }

  function StaffName(s: Staff): string { s.name }
  function CustomerName(c: Customer): string { c.name }
}
