/**
 * The customer view: a fetch that narrows by branch and replaces the list on success or records
 * the error on failure (there is no offline list here), the name search and the selection.
 */
module CrmView {
  import opened Options
  import opened Seqs
  import opened Text
  import opened Types
  import opened Filters
  import opened Remote

  /** The select of the fetch: every customer column, narrowed unless Global. */
  function CustomersQuery(sel: Branch): (q: Query)
    ensures q.table == "customers" && q.columns == "*"
    ensures q.branchEq.Some? <==> sel != Global
    ensures q.branchEq.Some? ==> q.branchEq.value == sel
  {
    BranchQuery("customers", "*", sel)
  }

  /**
   * The customer list once a fetch has settled: any array the store returns (an empty one
   * included, since an array is truthy) replaces the list; a null result or a failure keeps it.
   */
  function CustomersAfter(previous: seq<Customer>, outcome: FetchOutcome<Customer>): (r: seq<Customer>)
    ensures outcome.Ok? && outcome.data.Some? ==> r == outcome.data.value
    ensures outcome.Failed? || outcome.data.None? ==> r == previous
  {
    if outcome.Ok? && outcome.data.Some? then outcome.data.value else previous
  }

  /** The error message once a fetch has settled: the failure's message, or none. */
  function ErrorAfter(outcome: FetchOutcome<Customer>): (r: Option<string>)
    ensures r.Some? <==> outcome.Failed?
    ensures outcome.Failed? ==> r.value == outcome.message
  {
    if outcome.Failed? then Some(outcome.message) else None
  }

  /** A failure and a success never both leave their mark: an error comes with the old list. */
  lemma ErrorKeepsCustomers(previous: seq<Customer>, outcome: FetchOutcome<Customer>)
    ensures ErrorAfter(outcome).Some? ==> CustomersAfter(previous, outcome) == previous
    ensures CustomersAfter(previous, outcome) != previous ==> ErrorAfter(outcome).None? && outcome.data.Some?
  {
  }

  /**
   * No sample fallback: whatever the outcome, the list afterwards is either the previous one or
   * exactly what the store returned.
   */
  lemma NoFallback(previous: seq<Customer>, outcome: FetchOutcome<Customer>)
    ensures CustomersAfter(previous, outcome) == previous ||
            (outcome.Ok? && outcome.data.Some? && CustomersAfter(previous, outcome) == outcome.data.value)
  {
  }

  /** The search of the customer list: a case-insensitive substring match on the name. */
  function SearchCustomers(cs: seq<Customer>, query: string, lower: string -> string): (r: seq<Customer>)
    ensures forall i :: 0 <= i < |r| ==> r[i] in cs && Contains(lower(r[i].name), lower(query))
    ensures forall i :: 0 <= i < |cs| && Contains(lower(cs[i].name), lower(query)) ==> cs[i] in r
  {
    NameSearch(cs, CustomerName, query, lower)
  }

  /** An empty query keeps every customer, in order; any query keeps the list's order. */
  lemma SearchCustomersProperties(cs: seq<Customer>, query: string, lower: string -> string)
    requires lower("") == ""
    ensures SearchCustomers(cs, "", lower) == cs
    ensures IsSubseq(SearchCustomers(cs, query, lower), cs)
  {
    EmptyQueryKeepsAll(cs, CustomerName, lower);
    NameSearchIsSubseq(cs, CustomerName, query, lower);
  }

  /** What the database tab shows in place of the list. */
  datatype ListDisplay = Skeleton | NoCustomers | Listing(shown: seq<Customer>)

  /** The state of the customer view. */
  class CustomersView {
    var customers: seq<Customer>
    var loading: bool
    var selectedCustomer: Option<Customer>
    var searchQuery: string
    var errorMessage: Option<string>

    /** The first render: no customers, loading, nothing selected, no query, no error. */
    constructor()
      ensures customers == [] && loading && selectedCustomer.None? && searchQuery == "" && errorMessage.None?
    {
      customers := [];
      loading := true;
      selectedCustomer := None;
      searchQuery := "";
      errorMessage := None;
    }

    /** `fetchCustomers` up to the await: sets `loading`, clears the error, builds the query. */
    method StartFetch(sel: Branch) returns (q: Query)
      modifies this`loading, this`errorMessage
      ensures loading && errorMessage.None?
      ensures q == CustomersQuery(sel)
    {
      loading := true;
      errorMessage := None;
      q := Query("customers", "*", None);
      if sel != Global {
        q := q.(branchEq := Some(sel));
      }
    }

    /** `fetchCustomers` after the await, with its `catch` and its `finally`. */
    method FinishFetch(outcome: FetchOutcome<Customer>)
      modifies this`customers, this`errorMessage, this`loading
      ensures customers == CustomersAfter(old(customers), outcome)
      ensures outcome.Failed? ==> errorMessage == ErrorAfter(outcome)
      ensures outcome.Ok? ==> errorMessage == old(errorMessage)
      ensures !loading
    {
      match outcome {
        case Failed(message) =>
          errorMessage := Some(message);
        case Ok(data) =>
          if data.Some? {
            customers := data.value;
          }
      }
      loading := false;
    }

    /** A click on a customer card. */
    method Select(c: Customer)
      modifies this`selectedCustomer
      ensures selectedCustomer == Some(c)
    {
      selectedCustomer := Some(c);
    }

    /** Typing in the search box. */
    method SetSearchQuery(query: string)
      modifies this`searchQuery
      ensures searchQuery == query
    {
      searchQuery := query;
    }

    /** A card is highlighted when its id is the selected customer's. */
    predicate IsHighlighted(c: Customer)
      reads this
    {
      selectedCustomer.Some? && selectedCustomer.value.id == c.id
    }

    /** The skeleton while loading, the empty message for no customers, else the search result. */
    function Display(lower: string -> string): (d: ListDisplay)
      reads this
      ensures d.Skeleton? <==> loading
      ensures d.NoCustomers? <==> !loading && |customers| == 0
      ensures d.Listing? ==> d.shown == SearchCustomers(customers, searchQuery, lower)
    {
      if loading then Skeleton
      else if |customers| == 0 then NoCustomers
      else Listing(SearchCustomers(customers, searchQuery, lower))
    }
  }

  /** The customer just clicked is the one highlighted. */
  lemma SelectedIsHighlighted(v: CustomersView, c: Customer)
    requires v.selectedCustomer == Some(c)
    ensures v.IsHighlighted(c)
  {
  }
}
