/**
 * The customer list: the status filter buttons with their counts, and the list the search term
 * and the selected filter leave.
 */
module CustomersPage {
  import opened Values
  import opened JsString
  import opened Collections
  import opened Entities
  import Stats

  // ---------------------------------------------------------------- the list

  /** The name or the email contains the term, ignoring the case of both. */
  predicate NameOrEmailMatches(c: Customer, term: string) {
    Contains(ToLower(c.name), ToLower(term)) || Contains(ToLower(c.email), ToLower(term))
  }

  /** The phone or the id's decimal text contains the term as it is. */
  predicate PhoneOrIdMatches(c: Customer, term: string) {
    Contains(c.phone, term) || Contains(IntToString(c.id), term)
  }

  /** `matchesSearch`. */
  predicate MatchesSearch(c: Customer, term: string) {
    NameOrEmailMatches(c, term) || PhoneOrIdMatches(c, term)
  }

  /** `matchesStatus`: 'low-sessions' is its own rule, 'all' keeps everyone, any other value must equal the status. */
  predicate MatchesStatus(c: Customer, statusFilter: string) {
    if statusFilter == "low-sessions" then Stats.IsLowOnSessions(c)
    else if statusFilter != "all" then StatusName(c.status) == statusFilter
    else true
  }

  function Shown(term: string, statusFilter: string): Customer -> bool {
    (c: Customer) => MatchesSearch(c, term) && MatchesStatus(c, statusFilter)
  }

  /**
   * `filteredCustomers`: the customers matching both the search term and the status filter,
   * in their stored order.
   */
  function FilteredCustomers(customers: seq<Customer>, term: string, statusFilter: string): (r: seq<Customer>)
    ensures IsSubsequence(r, customers) && |r| <= |customers|
    ensures forall c :: c in r <==> c in customers && MatchesSearch(c, term) && MatchesStatus(c, statusFilter)
  {
    Filter(customers, Shown(term, statusFilter))
  }

  /** The empty term is contained in every string. */
  lemma ContainsEmpty(s: string)
    ensures Contains(s, "")
  {
    assert StartsWith(s, "");
  }

  /** Every customer matches the empty search. */
  lemma EmptySearchMatches(c: Customer)
    ensures MatchesSearch(c, "")
  {
    ContainsEmpty(ToLower(c.name));
  }

  /** With no search term and the 'all' filter, the list is every customer. */
  lemma ShowAll(customers: seq<Customer>)
    ensures FilteredCustomers(customers, "", "all") == customers
  {
    forall c | c in customers
      ensures Shown("", "all")(c)
    {
      EmptySearchMatches(c);
    }
    FilterKeepsAll(customers, Shown("", "all"));
  }

  /** A status filter keeps only customers with exactly that status. */
  lemma StatusFilterExact(customers: seq<Customer>, term: string, st: Status)
    ensures forall c :: c in FilteredCustomers(customers, term, StatusName(st)) ==> c.status == st
  {
  }

  /** 'low-sessions' keeps only active customers with fewer than five sessions. */
  lemma LowSessionsFilter(customers: seq<Customer>, term: string)
    ensures forall c :: c in FilteredCustomers(customers, term, "low-sessions") ==>
      c.status == Active && c.remainingSessions < 5
  {
  }

  /** A filter value that names no status and no special rule shows nobody. */
  lemma UnknownFilterShowsNone(customers: seq<Customer>, term: string, statusFilter: string)
    requires statusFilter != "all" && statusFilter != "low-sessions"
    requires statusFilter != "active" && statusFilter != "frozen" && statusFilter != "expired"
    ensures FilteredCustomers(customers, term, statusFilter) == []
  {
  }

  /**
   * Name and email match whatever the case of the term and of the stored text: lower-casing
   * either changes nothing.
   */
  lemma NameAndEmailIgnoreCase(c: Customer, term: string)
    ensures NameOrEmailMatches(c, ToLower(term)) == NameOrEmailMatches(c, term)
    ensures NameOrEmailMatches(c.(name := ToLower(c.name), email := ToLower(c.email)), term) == NameOrEmailMatches(c, term)
  {
    ToLowerIdempotent(term);
    ToLowerIdempotent(c.name);
    ToLowerIdempotent(c.email);
  }

  /** The phone is matched as it is stored: a term occurring in it at any position is a match. */
  lemma PhoneMatchesRaw(c: Customer, term: string)
    requires exists i :: OccursAt(c.phone, term, i)
    ensures MatchesSearch(c, term)
  {
    ContainsIff(c.phone, term);
  }

  // ---------------------------------------------------------------- the filter buttons

  /** One filter button: the filter value it selects and the count it shows. */
  datatype FilterOption = FilterOption(value: string, count: int)

  /** The buttons 'all', 'active', 'frozen', 'expired' and 'low-sessions', each with its own count. */
  function Filters(customers: seq<Customer>): seq<FilterOption> {
    [ FilterOption("all", |customers|),
      FilterOption("active", Stats.StatusCount(customers, Active)),
      FilterOption("frozen", Stats.StatusCount(customers, Frozen)),
      FilterOption("expired", Stats.StatusCount(customers, Expired)),
      FilterOption("low-sessions", |Filter(customers, Stats.IsLowOnSessions)|) ]
  }

  /** With an empty search, every button's count is the length of the list its filter shows. */
  lemma FilterCountsMatchList(customers: seq<Customer>, i: int)
    requires 0 <= i < |Filters(customers)|
    ensures Filters(customers)[i].count == |FilteredCustomers(customers, "", Filters(customers)[i].value)|
  {
    var o := Filters(customers)[i];
    forall c | c in customers
      ensures MatchesSearch(c, "")
    {
      EmptySearchMatches(c);
    }
    if i == 0 {
      ShowAll(customers);
    } else if i == 4 {
      FilterLengthAgrees(customers, Stats.IsLowOnSessions, Shown("", o.value));
    } else {
      var st := if i == 1 then Active else if i == 2 then Frozen else Expired;
      assert o.value == StatusName(st);
      FilterLengthAgrees(customers, Stats.HasStatus(st), Shown("", o.value));
    }
  }
}
