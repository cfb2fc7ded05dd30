/** The three application tables of the document store and their record shapes, field for
    field as the schema declares them. A `number` is a `real`; an optional field is an `Option`. */
module Schema {
  import opened Wrappers
  import opened Seqs

  /** One row of the `customers` table. */
  datatype Customer = Customer(
    customerId: string,
    gender: string,
    seniorCitizen: bool,
    partner: bool,
    dependents: bool,
    tenure: real,
    phoneService: bool,
    multipleLines: string,
    internetService: string,
    onlineSecurity: string,
    onlineBackup: string,
    deviceProtection: string,
    techSupport: string,
    streamingTV: string,
    streamingMovies: string,
    contract: string,
    paperlessBilling: bool,
    paymentMethod: string,
    monthlyCharges: real,
    totalCharges: real,
    churn: bool,
    churnProbability: Option<real>,
    riskLevel: Option<string>,
    lastUpdated: real)

  /** One row of the `churnPredictions` table: an append-only history of assessments. */
  datatype ChurnPrediction = ChurnPrediction(
    customerId: string,
    predictionDate: real,
    churnProbability: real,
    riskLevel: string,
    keyFactors: seq<string>,
    recommendations: seq<string>,
    confidence: real)

  /** One row of the `retentionCampaigns` table. */
  datatype RetentionCampaign = RetentionCampaign(
    campaignId: string,
    name: string,
    targetRiskLevel: string,
    description: string,
    discount: Option<real>,
    offerType: string,
    startDate: real,
    endDate: real,
    isActive: bool,
    customersTargeted: nat,
    successRate: Option<real>)

  /** Why a mutation threw. `NotUnique` is the store's own error when `.unique()` meets more than
      one matching document. */
  datatype StoreError = CustomerNotFound | CampaignNotFound | NotUnique

  /** The document store: each table is a sequence of records in insertion order, which is also
      the order every query of the core reads them in. `scheduledPredictions` records the
      re-predictions that mutations have handed to the scheduler. */
  class Database {
    var customers: seq<Customer>
    var predictions: seq<ChurnPrediction>
    var campaigns: seq<RetentionCampaign>
    var scheduledPredictions: seq<string>

    constructor ()
      ensures customers == [] && predictions == [] && campaigns == [] && scheduledPredictions == []
    {
      customers, predictions, campaigns, scheduledPredictions := [], [], [], [];
    }
  }

  predicate HasCustomerId(id: string, c: Customer)
  {
    c.customerId == id
  }

  predicate HasCampaignId(id: string, c: RetentionCampaign)
  {
    c.campaignId == id
  }

  /** `query("customers").withIndex("by_customer_id", q => q.eq("customerId", id)).unique()`. */
  function FindCustomer(cs: seq<Customer>, id: string): Lookup
  {
    FindUnique(cs, c => HasCustomerId(id, c))
  }

  /** `query("retentionCampaigns").withIndex("by_campaign_id", q => q.eq("campaignId", id)).unique()`. */
  function FindCampaign(cs: seq<RetentionCampaign>, id: string): Lookup
  {
    FindUnique(cs, c => HasCampaignId(id, c))
  }

  /** A patch that keeps a customer's id keeps the customer findable, at the same place. */
  lemma FindCustomerAfterPatch(cs: seq<Customer>, id: string, patched: Customer)
    requires FindCustomer(cs, id).At?
    requires patched.customerId == id
    ensures FindCustomer(cs[FindCustomer(cs, id).index := patched], id) == FindCustomer(cs, id)
  {
    FindUniqueAfterReplace(cs, c => HasCustomerId(id, c), patched);
  }

  /** The error a lookup that did not find exactly one record makes its mutation throw. */
  function LookupError(l: Lookup, notFound: StoreError): StoreError
  {
    if l.Ambiguous? then NotUnique else notFound
  }

  /** The `customers` delete loop: each existing document is deleted in turn, so after `i` steps
      the table holds the documents not yet visited. Used by every full-replace load. */
  method ClearCustomers(db: Database)
    modifies db`customers
    ensures db.customers == []
  {
    var existing := db.customers;
    var i := 0;
    while i < |existing|
      invariant 0 <= i <= |existing|
      invariant db.customers == existing[i..]
    {
      db.customers := db.customers[1..];
      i := i + 1;
    }
  }
}
