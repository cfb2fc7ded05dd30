/** The filter of the customer list (`src/components/CustomerList.tsx`): a search on the customer
    id that ignores case, an optional risk level and an optional churn status, all of which a
    customer must pass; and the button that clears all three. */
module CustomerListComponent {
  import opened Wrappers
  import opened Seqs
  import opened JsValues
  import opened Schema

  /** The three filter inputs; the empty string means "no filter". */
  datatype Filters = Filters(searchTerm: string, riskFilter: string, churnFilter: string)

  /** `customer.customerId.toLowerCase().includes(searchTerm.toLowerCase())`. */
  predicate MatchesSearch(c: Customer, searchTerm: string)
  {
    Includes(LowerCase(c.customerId), LowerCase(searchTerm))
  }

  /** `!riskFilter || customer.riskLevel === riskFilter`. */
  predicate MatchesRisk(c: Customer, riskFilter: string)
  {
    riskFilter == "" || c.riskLevel == Some(riskFilter)
  }

  /** `!churnFilter || (churnFilter === "churned" && customer.churn) || (churnFilter === "active" && !customer.churn)`. */
  predicate MatchesChurn(c: Customer, churnFilter: string)
  {
    churnFilter == "" || (churnFilter == "churned" && c.churn) || (churnFilter == "active" && !c.churn)
  }

  function Matches(f: Filters): Customer -> bool
  {
    (c: Customer) => MatchesSearch(c, f.searchTerm) && MatchesRisk(c, f.riskFilter) && MatchesChurn(c, f.churnFilter)
  }

  /** `filteredCustomers`. */
  function FilteredCustomers(cs: seq<Customer>, f: Filters): seq<Customer>
  {
    Filter(cs, Matches(f))
  }

  /** The "Clear Filters" button: all three inputs back to empty. */
  function ClearFilters(f: Filters): Filters
  {
    Filters("", "", "")
  }

  /** The list keeps the order of the customers and drops some of them: it is a subsequence, and a
      customer is listed exactly when it is in the input and passes all three filters. */
  lemma FilteredIsSubsequence(cs: seq<Customer>, f: Filters)
    ensures IsSubsequence(FilteredCustomers(cs, f), cs)
    ensures forall c :: c in FilteredCustomers(cs, f) <==>
      c in cs && MatchesSearch(c, f.searchTerm) && MatchesRisk(c, f.riskFilter) && MatchesChurn(c, f.churnFilter)
    ensures |FilteredCustomers(cs, f)| <= |cs|
  {
    FilterIsSubsequence(cs, Matches(f));
    FilterMembers(cs, Matches(f));
    FilterLength(cs, Matches(f));
  }

  /** With all three filters empty (as after "Clear Filters") every customer is listed, in order. */
  lemma ClearedFiltersKeepAll(cs: seq<Customer>, f: Filters)
    ensures FilteredCustomers(cs, ClearFilters(f)) == cs
  {
    var g := ClearFilters(f);
    forall c | c in cs ensures Matches(g)(c) {
      assert OccursAt(LowerCase(g.searchTerm), LowerCase(c.customerId), 0);
    }
    FilterAll(cs, Matches(g));
  }

  /** The search ignores the case of the term, and a term matches exactly when its lower-cased
      form occurs somewhere in the lower-cased id. */
  lemma SearchIgnoresCase(c: Customer, searchTerm: string)
    ensures MatchesSearch(c, searchTerm) == MatchesSearch(c, LowerCase(searchTerm))
    ensures MatchesSearch(c, searchTerm) <==>
      exists i :: 0 <= i <= |c.customerId| - |searchTerm| && OccursAt(LowerCase(searchTerm), LowerCase(c.customerId), i)
  {
    LowerCaseIdempotent(searchTerm);
  }

  /** A non-empty risk filter keeps exactly the customers with that risk level. This spells out
      `MatchesRisk` by definition, as a statement of the filter's meaning. */
  lemma RiskFilterKeepsLevel(c: Customer, riskFilter: string)
    requires riskFilter != ""
    ensures MatchesRisk(c, riskFilter) <==> c.riskLevel == Some(riskFilter)
  {
  }

  /** `churned` keeps the churned customers, `active` the others, and any other non-empty value
      keeps nobody. This spells out `MatchesChurn` by definition, as a statement of the filter's meaning. */
  lemma ChurnFilterCases(c: Customer, churnFilter: string)
    ensures churnFilter == "churned" ==> (MatchesChurn(c, churnFilter) <==> c.churn)
    ensures churnFilter == "active" ==> (MatchesChurn(c, churnFilter) <==> !c.churn)
    ensures churnFilter != "" && churnFilter != "churned" && churnFilter != "active" ==> !MatchesChurn(c, churnFilter)
  {
  }

  /** An unknown churn status empties the list. */
  lemma {:induction false} UnknownChurnFilterListsNobody(cs: seq<Customer>, f: Filters)
    requires f.churnFilter != "" && f.churnFilter != "churned" && f.churnFilter != "active"
    ensures FilteredCustomers(cs, f) == []
  {
    if cs != [] {
      UnknownChurnFilterListsNobody(cs[1..], f);
    }
  }
}
