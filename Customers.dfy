/** The customer-table functions of `convex/customers.ts`: the dashboard statistics, the sample
    data that replaces the table, the manual update of a customer, and the result bound of the
    search. */
module Customers {
  import opened Wrappers
  import opened Seqs
  import opened Schema

  // ---------------------------------------------------------------- getChurnStatistics

  predicate IsChurned(c: Customer)
  {
    c.churn
  }

  predicate IsActive(c: Customer)
  {
    !c.churn
  }

  /** `c => c.riskLevel === level`: a customer without a risk level matches no level. */
  function RiskIs(level: string): Customer -> bool
  {
    (c: Customer) => c.riskLevel == Some(level)
  }

  /** `c => c.contract === kind`. */
  function ContractIs(kind: string): Customer -> bool
  {
    (c: Customer) => c.contract == kind
  }

  /** A percentage that is 0 for an empty whole. */
  function Rate(part: nat, whole: nat): real
  {
    if whole > 0 then part as real / whole as real * 100.0 else 0.0
  }

  /** The rate of a part is 0 for an empty whole and a percentage otherwise; the whole is 100%. */
  lemma RateBounds(part: nat, whole: nat)
    requires part <= whole
    ensures whole == 0 ==> Rate(part, whole) == 0.0
    ensures 0.0 <= Rate(part, whole) <= 100.0
    ensures 0 < part == whole ==> Rate(part, whole) == 100.0
    ensures part == 0 ==> Rate(part, whole) == 0.0
  {
    if whole > 0 {
      var q := part as real / whole as real;
      assert q * whole as real == part as real;
      assert q <= 1.0;
    }
  }

  /** The figures of one contract type. */
  datatype ContractStats = ContractStats(total: nat, churned: nat, churnRate: real)

  /** The result of `getChurnStatistics`, with the overall `churnRate` before its rounding to
      two decimals. */
  datatype ChurnStatistics = ChurnStatistics(
    totalCustomers: nat,
    activeCustomers: int,
    churnedCustomers: nat,
    churnRate: real,
    high: nat,
    medium: nat,
    low: nat,
    monthToMonth: ContractStats,
    oneYear: ContractStats,
    twoYear: ContractStats)

  function ContractStatsOf(cs: seq<Customer>, kind: string): ContractStats
  {
    var group := Filter(cs, ContractIs(kind));
    ContractStats(|group|, |Filter(group, IsChurned)|, Rate(|Filter(group, IsChurned)|, |group|))
  }

  /** `getChurnStatistics` over the rows of the `customers` table. */
  function Statistics(cs: seq<Customer>): ChurnStatistics
  {
    var total := |cs|;
    var churned := |Filter(cs, IsChurned)|;
    ChurnStatistics(
      total, total - churned, churned, Rate(churned, total),
      |Filter(cs, RiskIs("High"))|, |Filter(cs, RiskIs("Medium"))|, |Filter(cs, RiskIs("Low"))|,
      ContractStatsOf(cs, "Month-to-month"), ContractStatsOf(cs, "One year"), ContractStatsOf(cs, "Two year"))
  }

  /** Active and churned customers split the table: the churned ones are those with `churn` set,
      the active ones the rest, and the churn rate is 0 on an empty table and a percentage
      otherwise. */
  lemma StatisticsTotals(cs: seq<Customer>)
    ensures var st := Statistics(cs);
      && st.totalCustomers == |cs|
      && st.churnedCustomers == Count(cs, IsChurned)
      && st.activeCustomers == Count(cs, IsActive)
      && st.activeCustomers + st.churnedCustomers == st.totalCustomers
      && (|cs| == 0 ==> st.churnRate == 0.0)
      && 0.0 <= st.churnRate <= 100.0
  {
    FilterLength(cs, IsChurned);
    CountComplement(cs, IsChurned, IsActive);
    RateBounds(Count(cs, IsChurned), |cs|);
  }

  /** The three risk buckets count the customers with exactly that level; together with the
      customers whose level is absent or none of the three they make up the table, so they never
      exceed it. */
  lemma RiskDistribution(cs: seq<Customer>)
    ensures var st := Statistics(cs);
      && st.high == Count(cs, RiskIs("High"))
      && st.medium == Count(cs, RiskIs("Medium"))
      && st.low == Count(cs, RiskIs("Low"))
      && st.high + st.medium + st.low + Count(cs, Unbucketed) == st.totalCustomers
      && st.high + st.medium + st.low <= st.totalCustomers
  {
    FilterLength(cs, RiskIs("High"));
    FilterLength(cs, RiskIs("Medium"));
    FilterLength(cs, RiskIs("Low"));
    CountPartition(cs, RiskIs("High"), RiskIs("Medium"), RiskIs("Low"), Unbucketed);
  }

  /** A customer in no risk bucket: no risk level, or one that is not `High`, `Medium` or `Low`. */
  predicate Unbucketed(c: Customer)
  {
    !(RiskIs("High")(c) || RiskIs("Medium")(c) || RiskIs("Low")(c))
  }

  /** In each contract group the churned customers are at most the group, the rate is 0 for an
      empty group and a percentage otherwise. */
  lemma ContractStatsBounds(cs: seq<Customer>, kind: string)
    ensures var b := ContractStatsOf(cs, kind);
      && b.total == Count(cs, ContractIs(kind))
      && b.churned <= b.total
      && (b.total == 0 ==> b.churnRate == 0.0)
      && 0.0 <= b.churnRate <= 100.0
  {
    var group := Filter(cs, ContractIs(kind));
    FilterLength(cs, ContractIs(kind));
    FilterLength(group, IsChurned);
    RateBounds(|Filter(group, IsChurned)|, |group|);
  }

  /** The three contract groups are disjoint, so their totals add up to at most the table. */
  lemma ContractGroupsWithinTotal(cs: seq<Customer>)
    ensures var st := Statistics(cs);
      st.monthToMonth.total + st.oneYear.total + st.twoYear.total <= st.totalCustomers
  {
    ContractStatsBounds(cs, "Month-to-month");
    ContractStatsBounds(cs, "One year");
    ContractStatsBounds(cs, "Two year");
    CountPartition(cs, ContractIs("Month-to-month"), ContractIs("One year"), ContractIs("Two year"), OtherContract);
  }

  predicate OtherContract(c: Customer)
  {
    !(ContractIs("Month-to-month")(c) || ContractIs("One year")(c) || ContractIs("Two year")(c))
  }

  // ---------------------------------------------------------------- generateSampleData

  /** The eight customers `generateSampleData` inserts, in order, all stamped with `now`. */
  function SampleCustomers(now: nat): seq<Customer>
  {
    var t := now as real;
    [ Customer("CUST001", "Female", false, true, false, 1.0, false, "No phone service", "DSL",
               "No", "Yes", "No", "No", "No", "No", "Month-to-month", true, "Electronic check",
               29.85, 29.85, false, None, None, t),
      Customer("CUST002", "Male", false, false, false, 34.0, true, "No", "DSL",
               "Yes", "No", "Yes", "No", "No", "No", "One year", false, "Mailed check",
               56.95, 1889.5, false, None, None, t),
      Customer("CUST003", "Male", false, false, false, 2.0, true, "No", "DSL",
               "Yes", "Yes", "No", "No", "No", "No", "Month-to-month", true, "Mailed check",
               53.85, 108.15, true, None, None, t),
      Customer("CUST004", "Male", false, false, false, 45.0, false, "No phone service", "DSL",
               "Yes", "No", "Yes", "Yes", "No", "No", "One year", false, "Bank transfer (automatic)",
               42.30, 1840.75, false, None, None, t),
      Customer("CUST005", "Female", false, false, false, 2.0, true, "No", "Fiber optic",
               "No", "No", "No", "No", "No", "No", "Month-to-month", true, "Electronic check",
               70.70, 151.65, true, None, None, t),
      Customer("CUST006", "Female", false, false, false, 8.0, true, "Yes", "Fiber optic",
               "No", "No", "Yes", "No", "Yes", "Yes", "Month-to-month", true, "Electronic check",
               99.65, 820.5, true, None, None, t),
      Customer("CUST007", "Male", true, true, false, 22.0, true, "Yes", "Fiber optic",
               "No", "Yes", "No", "No", "Yes", "No", "Month-to-month", true, "Credit card (automatic)",
               89.10, 1949.4, false, None, None, t),
      Customer("CUST008", "Female", false, true, true, 10.0, false, "No phone service", "DSL",
               "Yes", "No", "No", "No", "No", "No", "Month-to-month", false, "Mailed check",
               29.75, 301.9, false, None, None, t) ]
  }

  /** The sample holds eight customers with pairwise distinct ids, none assessed yet, so each of
      them is found by its id at its own position. */
  lemma SampleCustomersDistinct(now: nat)
    ensures var s := SampleCustomers(now);
      && |s| == 8
      && (forall i, j :: 0 <= i < j < |s| ==> s[i].customerId != s[j].customerId)
      && (forall i :: 0 <= i < |s| ==> s[i].churnProbability.None? && s[i].riskLevel.None?)
  {
  }

  /** Each sample customer is found by its id at its own position. */
  lemma SampleCustomersFindable(now: nat, i: nat)
    requires i < |SampleCustomers(now)|
    ensures FindCustomer(SampleCustomers(now), SampleCustomers(now)[i].customerId) == At(i)
  {
    var s := SampleCustomers(now);
    SampleCustomersDistinct(now);
    var l := FindCustomer(s, s[i].customerId);
    if !l.At? || l.index != i {
      assert HasCustomerId(s[i].customerId, s[i]);
    }
  }

  /** `generateSampleData`: every existing customer is deleted, then the eight samples are
      inserted in order; the reply's count is 8. */
  method GenerateSampleData(db: Database, now: nat) returns (count: nat)
    modifies db`customers
    ensures db.customers == SampleCustomers(now)
    ensures count == 8
  {
    ClearCustomers(db);
    var sample := SampleCustomers(now);
    for i := 0 to |sample|
      invariant db.customers == sample[..i]
    {
      assert sample[..i + 1] == sample[..i] + [sample[i]];
      db.customers := db.customers + [sample[i]];
    }
    assert sample[..|sample|] == sample;
    count := |sample|;
  }

  // ---------------------------------------------------------------- updateCustomer

  /** The `updates` argument of `updateCustomer`: each field is optional. */
  datatype CustomerUpdates = CustomerUpdates(
    monthlyCharges: Option<real>,
    contract: Option<string>,
    paymentMethod: Option<string>,
    internetService: Option<string>)

  function OrKeep<T>(update: Option<T>, current: T): T
  {
    if update.Some? then update.value else current
  }

  /** `{ ...args.updates, lastUpdated: now }` patched onto a customer. */
  function Patched(c: Customer, u: CustomerUpdates, now: nat): Customer
  {
    c.(monthlyCharges := OrKeep(u.monthlyCharges, c.monthlyCharges),
       contract := OrKeep(u.contract, c.contract),
       paymentMethod := OrKeep(u.paymentMethod, c.paymentMethod),
       internetService := OrKeep(u.internetService, c.internetService),
       lastUpdated := now as real)
  }

  /** A supplied field takes its new value, an omitted one keeps the old, `lastUpdated` becomes
      `now`, and every other field is unchanged. */
  lemma PatchedChangesOnlySupplied(c: Customer, u: CustomerUpdates, now: nat)
    ensures var d := Patched(c, u, now);
      && (u.monthlyCharges.Some? ==> d.monthlyCharges == u.monthlyCharges.value)
      && (u.monthlyCharges.None? ==> d.monthlyCharges == c.monthlyCharges)
      && (u.contract.Some? ==> d.contract == u.contract.value)
      && (u.contract.None? ==> d.contract == c.contract)
      && (u.paymentMethod.Some? ==> d.paymentMethod == u.paymentMethod.value)
      && (u.paymentMethod.None? ==> d.paymentMethod == c.paymentMethod)
      && (u.internetService.Some? ==> d.internetService == u.internetService.value)
      && (u.internetService.None? ==> d.internetService == c.internetService)
      && d.lastUpdated == now as real
      && d.(monthlyCharges := c.monthlyCharges, contract := c.contract, paymentMethod := c.paymentMethod,
            internetService := c.internetService, lastUpdated := c.lastUpdated) == c
  {
  }

  /** Applying the same update twice is applying it once. */
  lemma PatchedIdempotent(c: Customer, u: CustomerUpdates, now: nat)
    ensures Patched(Patched(c, u, now), u, now) == Patched(c, u, now)
  {
  }

  /** An update with no fields only refreshes `lastUpdated`. */
  lemma EmptyUpdateOnlyTouches(c: Customer, now: nat)
    ensures Patched(c, CustomerUpdates(None, None, None, None), now) == c.(lastUpdated := now as real)
  {
  }

  /** `updateCustomer`: the customer with the id is patched and a re-prediction for that id is
      handed to the scheduler; with no such customer it throws "Customer not found" (and the
      store throws when several share the id), changing nothing. */
  method UpdateCustomer(db: Database, customerId: string, u: CustomerUpdates, now: nat)
    returns (r: Result<(), StoreError>)
    modifies db`customers, db`scheduledPredictions
    ensures var look := FindCustomer(old(db.customers), customerId);
      && (look.At? ==>
            r == Ok(())
            && db.customers == old(db.customers)[look.index := Patched(old(db.customers)[look.index], u, now)]
            && db.scheduledPredictions == old(db.scheduledPredictions) + [customerId])
      && (!look.At? ==>
            r == Err(LookupError(look, CustomerNotFound))
            && db.customers == old(db.customers) && db.scheduledPredictions == old(db.scheduledPredictions))
  {
    var look := FindCustomer(db.customers, customerId);
    if !look.At? {
      return Err(LookupError(look, CustomerNotFound));
    }
    var i := look.index;
    db.customers := db.customers[i := Patched(db.customers[i], u, now)];
    db.scheduledPredictions := db.scheduledPredictions + [customerId];
    r := Ok(());
  }

  /** The patch keeps the id, so after an update the customer is still found at the same place,
      now holding the patched record. */
  lemma UpdateKeepsCustomerFindable(cs: seq<Customer>, customerId: string, u: CustomerUpdates, now: nat)
    requires FindCustomer(cs, customerId).At?
    ensures var i := FindCustomer(cs, customerId).index;
      var cs' := cs[i := Patched(cs[i], u, now)];
      FindCustomer(cs', customerId) == At(i) && cs'[i] == Patched(cs[i], u, now)
  {
    var i := FindCustomer(cs, customerId).index;
    FindCustomerAfterPatch(cs, customerId, Patched(cs[i], u, now));
  }

  // ---------------------------------------------------------------- searchCustomers

  /** The arguments of `searchCustomers`. */
  datatype SearchArgs = SearchArgs(searchTerm: string, riskLevel: Option<string>, churnStatus: Option<string>)

  /** The limit every branch of `searchCustomers` passes to `take`. */
  const SearchLimit: nat := 50

  /** Which index the branch without a search term reads: by risk level when one is given, else by
      churn status when it is `churned` or `active`, else the whole table. */
  function IndexFilter(args: SearchArgs): Customer -> bool
  {
    if args.riskLevel.Some? && args.riskLevel.value != "" then RiskIs(args.riskLevel.value)
    else if args.churnStatus == Some("churned") then IsChurned
    else if args.churnStatus == Some("active") then IsActive
    else (c: Customer) => true
  }

  /** `searchCustomers`. A non-empty search term goes to the full-text index, whose ranked matches
      `searchHits` stands for; otherwise an index query returns the matching customers in table order.
      Either way at most `SearchLimit` customers come back. */
  function SearchCustomers(cs: seq<Customer>, args: SearchArgs, searchHits: seq<Customer>): (r: seq<Customer>)
    ensures |r| <= SearchLimit
    ensures args.searchTerm != "" ==> |r| <= |searchHits| && r == searchHits[..|r|]
    ensures args.searchTerm != "" ==> |r| == Min(|searchHits|, SearchLimit)
  {
    TakeProperties(searchHits, SearchLimit);
    if args.searchTerm != "" then Take(searchHits, SearchLimit)
    else Take(Filter(cs, IndexFilter(args)), SearchLimit)
  }

  /** Without a search term the result is the first `SearchLimit` customers the index filter keeps,
      in table order: a subsequence of the table, all of them matching, and as many as there are up
      to the limit. */
  lemma SearchWithoutTerm(cs: seq<Customer>, args: SearchArgs, searchHits: seq<Customer>)
    requires args.searchTerm == ""
    ensures var r := SearchCustomers(cs, args, searchHits);
      && r == Filter(cs, IndexFilter(args))[..|r|]
      && |r| == Min(Count(cs, IndexFilter(args)), SearchLimit)
      && (forall c :: c in r ==> c in cs && IndexFilter(args)(c))
  {
    var all := Filter(cs, IndexFilter(args));
    TakeProperties(all, SearchLimit);
    FilterLength(cs, IndexFilter(args));
    FilterMembers(cs, IndexFilter(args));
    var r := SearchCustomers(cs, args, searchHits);
    forall c | c in r ensures c in all {
      var k :| 0 <= k < |r| && r[k] == c;
      assert all[k] == c;
    }
  }
}
