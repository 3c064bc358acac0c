/**
 * The remote store as the views see it: a query narrowed by branch, and the outcome of running it.
 * The store itself (transport, server-side ordering) is not modelled; an outcome is a parameter.
 */
module Remote {
  import opened Options
  import opened Types
  import opened Filters

  /**
   * What `await query` yields: a failure (the `error` that is thrown, or any exception) with its
   * message, or the `data` field, which may be null.
   */
  datatype FetchOutcome<T> = Failed(message: string) | Ok(data: Option<seq<T>>)

  /** `from(table).select(columns)`, with `.eq('branch', b)` when `branchEq` is `Some(b)`. */
  datatype Query = Query(table: string, columns: string, branchEq: Option<Branch>)

  /** A query narrowed by a branch-equality predicate only when the selector is not Global. */
  function BranchQuery(table: string, columns: string, sel: Branch): (q: Query)
    ensures q.table == table && q.columns == columns
    ensures q.branchEq.Some? <==> sel != Global
    ensures q.branchEq.Some? ==> q.branchEq.value == sel
  {
    Query(table, columns, if sel == Global then None else Some(sel))
  }

  /** The rows a store returns for a query satisfy its branch-equality predicate, if it has one. */
  ghost predicate Honours<T>(q: Query, branchOf: T -> Branch, rows: seq<T>) {
    q.branchEq.Some? ==> forall i :: 0 <= i < |rows| ==> branchOf(rows[i]) == q.branchEq.value
  }

  /**
   * Narrowing on the server and narrowing locally agree: the rows a store returns for a branch
   * query, when it honours the query, are exactly what the local branch filter would keep.
   */
  lemma HonouredRowsNeedNoFilter<T>(table: string, columns: string, sel: Branch, branchOf: T -> Branch, rows: seq<T>)
    requires Honours(BranchQuery(table, columns, sel), branchOf, rows)
    ensures ByBranch(rows, branchOf, sel) == rows
  {
    if sel == Global {
      ByBranchGlobal(rows, branchOf);
    } else {
      ByBranchOfNarrowed(rows, branchOf, sel);
    }
  }
}
