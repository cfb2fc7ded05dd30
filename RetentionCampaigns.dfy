/** The retention-campaign functions of `convex/retentionCampaigns.ts`: creating a campaign,
    listing the running ones, the customer-pattern analysis and the fixed offer table used when
    the language model gives no answer, and the status update. */
module RetentionCampaigns {
  import opened Wrappers
  import opened Seqs
  import opened JsValues
  import opened Schema
  import Customers

  // ---------------------------------------------------------------- createCampaign

  /** `24 * 60 * 60 * 1000`, milliseconds in a day. */
  const MsPerDay: real := 86400000.0

  /** The arguments of `createCampaign`. */
  datatype CampaignArgs = CampaignArgs(
    name: string,
    targetRiskLevel: string,
    description: string,
    discount: Option<real>,
    offerType: string,
    durationDays: real)

  /** `CAMP_<now>`. */
  function CampaignIdAt(now: nat): string
  {
    "CAMP_" + NatToString(now)
  }

  /** `getCustomersByRiskLevel`: the customers with that risk level, in table order. */
  function Segment(cs: seq<Customer>, riskLevel: string): seq<Customer>
  {
    Filter(cs, Customers.RiskIs(riskLevel))
  }

  /** The record `createCampaign` inserts. */
  function NewCampaign(args: CampaignArgs, cs: seq<Customer>, now: nat): RetentionCampaign
  {
    RetentionCampaign(CampaignIdAt(now), args.name, args.targetRiskLevel, args.description, args.discount,
                      args.offerType, now as real, now as real + args.durationDays * MsPerDay, true,
                      |Segment(cs, args.targetRiskLevel)|, None)
  }

  /** A new campaign starts now, runs for its number of days, is active, has no success rate yet,
      and records how many customers had the target risk level when it was created. */
  lemma NewCampaignProperties(args: CampaignArgs, cs: seq<Customer>, now: nat)
    ensures var c := NewCampaign(args, cs, now);
      && c.startDate == now as real
      && c.endDate - c.startDate == args.durationDays * 86400000.0
      && (c.startDate <= c.endDate <==> args.durationDays >= 0.0)
      && c.isActive && c.successRate.None?
      && c.customersTargeted == Count(cs, Customers.RiskIs(args.targetRiskLevel))
      && c.targetRiskLevel == args.targetRiskLevel
  {
    FilterLength(cs, Customers.RiskIs(args.targetRiskLevel));
  }

  /** The targeted count is a snapshot: customers added afterwards do not change a stored campaign,
      while the same arguments at the same time on the longer table would count them too. */
  lemma TargetedCountIsSnapshot(args: CampaignArgs, cs: seq<Customer>, later: seq<Customer>, now: nat)
    ensures NewCampaign(args, cs + later, now).customersTargeted ==
      NewCampaign(args, cs, now).customersTargeted + Count(later, Customers.RiskIs(args.targetRiskLevel))
  {
    FilterLength(cs, Customers.RiskIs(args.targetRiskLevel));
    FilterLength(later, Customers.RiskIs(args.targetRiskLevel));
    FilterLength(cs + later, Customers.RiskIs(args.targetRiskLevel));
    FilterAppend(cs, later, Customers.RiskIs(args.targetRiskLevel));
  }

  /** The result of `createCampaign`. */
  datatype Created = Created(campaignId: string, customersTargeted: nat)

  /** `createCampaign`: one campaign is appended, and its id and targeted count are returned. */
  method CreateCampaign(db: Database, args: CampaignArgs, now: nat) returns (r: Created)
    modifies db`campaigns
    ensures db.campaigns == old(db.campaigns) + [NewCampaign(args, db.customers, now)]
    ensures r == Created(CampaignIdAt(now), NewCampaign(args, db.customers, now).customersTargeted)
  {
    var campaignId := CampaignIdAt(now);
    var startDate := now as real;
    var endDate := startDate + args.durationDays * 24.0 * 60.0 * 60.0 * 1000.0;
    var targetCustomers := Segment(db.customers, args.targetRiskLevel);
    db.campaigns := db.campaigns + [RetentionCampaign(campaignId, args.name, args.targetRiskLevel,
      args.description, args.discount, args.offerType, startDate, endDate, true, |targetCustomers|, None)];
    r := Created(campaignId, |targetCustomers|);
  }

  // ---------------------------------------------------------------- getActiveCampaigns

  predicate IsActiveCampaign(c: RetentionCampaign)
  {
    c.isActive
  }

  /** Both ends of the window are inclusive. */
  function InWindow(now: real): RetentionCampaign -> bool
  {
    (c: RetentionCampaign) => c.startDate <= now && c.endDate >= now
  }

  /** `getActiveCampaigns`: the campaigns the `by_active` index returns for `isActive == true`,
      then those whose window holds `now`. */
  function ActiveCampaigns(cs: seq<RetentionCampaign>, now: nat): seq<RetentionCampaign>
  {
    Filter(Filter(cs, IsActiveCampaign), InWindow(now as real))
  }

  /** A campaign is listed exactly when it is in the table, active, and `startDate <= now <= endDate`;
      the list keeps the table order. */
  lemma ActiveCampaignsMembers(cs: seq<RetentionCampaign>, now: nat)
    ensures forall c :: c in ActiveCampaigns(cs, now) <==>
      c in cs && c.isActive && c.startDate <= now as real <= c.endDate
    ensures IsSubsequence(ActiveCampaigns(cs, now), cs)
  {
    var active := Filter(cs, IsActiveCampaign);
    FilterMembers(cs, IsActiveCampaign);
    FilterMembers(active, InWindow(now as real));
    FilterIsSubsequence(cs, IsActiveCampaign);
    FilterIsSubsequence(active, InWindow(now as real));
    SubsequenceTransitive(ActiveCampaigns(cs, now), active, cs);
  }

  // ---------------------------------------------------------------- analyzeCustomerPatterns

  /** The object a `reduce` that counts occurrences builds: its keys in insertion order and the
      count under each. */
  datatype Histogram = Histogram(keys: seq<string>, counts: map<string, nat>)

  /** Each key once, and exactly the keys of the map. */
  ghost predicate WellFormed(h: Histogram)
  {
    && (forall i, j :: 0 <= i < j < |h.keys| ==> h.keys[i] != h.keys[j])
    && (forall k :: k in h.counts <==> k in h.keys)
  }

  /** One step of `values.reduce((acc, v) => { acc[v] = (acc[v] || 0) + 1; return acc; }, {})`: a
      value seen for the first time becomes the last key with count 1, a value seen before bumps
      its count. */
  function TallyStep(h: Histogram, v: string): (h': Histogram)
    requires WellFormed(h)
    ensures WellFormed(h')
    ensures v in h'.counts && |h'.keys| > 0
  {
    if v in h.counts then Histogram(h.keys, h.counts[v := h.counts[v] + 1])
    else Histogram(h.keys + [v], h.counts[v := 1])
  }

  /** The whole `reduce`, from the empty object. */
  function Tally(values: seq<string>): (h: Histogram)
    ensures WellFormed(h)
    ensures |values| > 0 ==> |h.keys| > 0
  {
    if values == [] then Histogram([], map[])
    else TallyStep(Tally(values[..|values| - 1]), values[|values| - 1])
  }

  /** The keys are the distinct values, and each count is the number of occurrences. */
  lemma {:induction false} TallyCounts(values: seq<string>)
    ensures forall k :: k in Tally(values).counts <==> k in values
    ensures forall k :: k in Tally(values).counts ==> Tally(values).counts[k] == multiset(values)[k]
  {
    if values != [] {
      var n := |values| - 1;
      TallyCounts(values[..n]);
      assert values == values[..n] + [values[n]];
    }
  }

  /** Sum of the counts under some keys. */
  function SumOver(keys: seq<string>, counts: map<string, nat>): nat
    requires forall k :: k in keys ==> k in counts
  {
    if keys == [] then 0 else counts[keys[0]] + SumOver(keys[1..], counts)
  }

  lemma {:induction false} SumOverSnoc(keys: seq<string>, k: string, counts: map<string, nat>)
    requires forall x :: x in keys + [k] ==> x in counts
    ensures SumOver(keys + [k], counts) == SumOver(keys, counts) + counts[k]
  {
    if keys != [] {
      assert (keys + [k])[1..] == keys[1..] + [k];
      SumOverSnoc(keys[1..], k, counts);
    }
  }

  /** Changing the map outside the keys changes no sum over them. */
  lemma {:induction false} SumOverAgree(keys: seq<string>, counts: map<string, nat>, counts': map<string, nat>)
    requires forall k :: k in keys ==> k in counts && k in counts' && counts[k] == counts'[k]
    ensures SumOver(keys, counts) == SumOver(keys, counts')
  {
    if keys != [] {
      SumOverAgree(keys[1..], counts, counts');
    }
  }

  /** Bumping the count of a key that occurs once adds one to the sum. */
  lemma {:induction false} SumOverBump(keys: seq<string>, counts: map<string, nat>, v: string)
    requires forall k :: k in keys ==> k in counts
    requires v in counts
    requires forall i, j :: 0 <= i < j < |keys| ==> keys[i] != keys[j]
    ensures SumOver(keys, counts[v := counts[v] + 1]) == SumOver(keys, counts) + (if v in keys then 1 else 0)
  {
    if keys != [] {
      SumOverBump(keys[1..], counts, v);
      if keys[0] == v {
        assert v !in keys[1..] by {
          forall j | 0 <= j < |keys[1..]| ensures keys[1..][j] != v {
            assert keys[j + 1] != keys[0];
          }
        }
      }
    }
  }

  /** Counting one more value adds one to the total. */
  lemma SumAfterStep(h: Histogram, v: string)
    requires WellFormed(h)
    ensures SumOver(TallyStep(h, v).keys, TallyStep(h, v).counts) == SumOver(h.keys, h.counts) + 1
  {
    if v in h.counts {
      assert v in h.keys;
      SumOverBump(h.keys, h.counts, v);
    } else {
      var counts' := h.counts[v := 1];
      assert forall k :: k in h.keys ==> k in h.counts && counts'[k] == h.counts[k];
      SumOverSnoc(h.keys, v, counts');
      SumOverAgree(h.keys, h.counts, counts');
    }
  }

  /** The counts of a histogram add up to the number of values counted. */
  lemma {:induction false} TallyTotal(values: seq<string>)
    ensures SumOver(Tally(values).keys, Tally(values).counts) == |values|
  {
    if values != [] {
      var n := |values| - 1;
      TallyTotal(values[..n]);
      SumAfterStep(Tally(values[..n]), values[n]);
    }
  }

  /** `Object.keys(counts).reduce((a, b) => counts[a] > counts[b] ? a : b)`, as the position of the
      key it returns: a key with the largest count, and among those the last, because a later key
      replaces the current one unless the current one is strictly larger. */
  function ModeIndex(keys: seq<string>, counts: map<string, nat>): (i: nat)
    requires |keys| > 0 && forall k :: k in keys ==> k in counts
    ensures i < |keys|
    ensures forall j :: 0 <= j < |keys| ==> counts[keys[j]] <= counts[keys[i]]
    ensures forall j :: i < j < |keys| ==> counts[keys[j]] < counts[keys[i]]
  {
    if |keys| == 1 then 0
    else
      var n := |keys| - 1;
      var a := ModeIndex(keys[..n], counts);
      assert forall j :: 0 <= j < n ==> keys[..n][j] == keys[j];
      if counts[keys[a]] > counts[keys[n]] then a else n
  }

  function Mode(h: Histogram): string
    requires |h.keys| > 0 && WellFormed(h)
  {
    h.keys[ModeIndex(h.keys, h.counts)]
  }

  /** On a tie the later key wins: when the last two keys share the largest count, the mode is the
      last key. */
  lemma ModeTieGoesToLater(keys: seq<string>, counts: map<string, nat>)
    requires |keys| >= 2 && forall k :: k in keys ==> k in counts
    requires counts[keys[|keys| - 2]] == counts[keys[|keys| - 1]]
    requires forall j :: 0 <= j < |keys| ==> counts[keys[j]] <= counts[keys[|keys| - 1]]
    ensures ModeIndex(keys, counts) == |keys| - 1
  {
  }

  function Contract(c: Customer): string { c.contract }
  function PaymentMethod(c: Customer): string { c.paymentMethod }
  function InternetService(c: Customer): string { c.internetService }
  function Tenure(c: Customer): real { c.tenure }
  function MonthlyCharges(c: Customer): real { c.monthlyCharges }

  /** One field of every customer, in order. */
  function Column(cs: seq<Customer>, field: Customer -> string): seq<string>
  {
    seq(|cs|, i requires 0 <= i < |cs| => field(cs[i]))
  }

  /** `customers.reduce((sum, c) => sum + field(c), 0)`. */
  function Sum(cs: seq<Customer>, field: Customer -> real): real
  {
    if cs == [] then 0.0 else Sum(cs[..|cs| - 1], field) + field(cs[|cs| - 1])
  }

  function Mean(cs: seq<Customer>, field: Customer -> real): real
    requires |cs| > 0
  {
    Sum(cs, field) / |cs| as real
  }

  /** A sum of values that all lie in `[lo, hi]` lies between `n * lo` and `n * hi`. */
  lemma {:induction false} SumBounds(cs: seq<Customer>, field: Customer -> real, lo: real, hi: real)
    requires forall i :: 0 <= i < |cs| ==> lo <= field(cs[i]) <= hi
    ensures |cs| as real * lo <= Sum(cs, field) <= |cs| as real * hi
  {
    if cs != [] {
      var n := |cs| - 1;
      SumBounds(cs[..n], field, lo, hi);
      var m := n as real;
      assert |cs| as real * lo == m * lo + lo;
      assert |cs| as real * hi == m * hi + hi;
    }
  }

  /** An average lies between the smallest and the largest value. */
  lemma MeanBounds(cs: seq<Customer>, field: Customer -> real, lo: real, hi: real)
    requires |cs| > 0
    requires forall i :: 0 <= i < |cs| ==> lo <= field(cs[i]) <= hi
    ensures lo <= Mean(cs, field) <= hi
  {
    SumBounds(cs, field, lo, hi);
    var n := |cs| as real;
    assert Mean(cs, field) * n == Sum(cs, field);
  }

  /** The result of `analyzeCustomerPatterns`, with the averages before their rounding. */
  datatype Patterns = Patterns(
    avgTenure: real,
    avgMonthlyCharges: real,
    mostCommonContract: string,
    mostCommonPayment: string,
    internetServices: Histogram)

  /** `analyzeCustomerPatterns`, which is only called on a non-empty segment. */
  function Analyze(cs: seq<Customer>): Patterns
    requires |cs| > 0
  {
    Patterns(Mean(cs, Tenure), Mean(cs, MonthlyCharges),
             Mode(Tally(Column(cs, Contract))), Mode(Tally(Column(cs, PaymentMethod))),
             Tally(Column(cs, InternetService)))
  }

  /** The internet-service histogram counts every customer once: its counts add up to the segment
      size, and each count is the number of customers with that service. */
  lemma InternetHistogramCountsEveryone(cs: seq<Customer>)
    requires |cs| > 0
    ensures var h := Analyze(cs).internetServices;
      && SumOver(h.keys, h.counts) == |cs|
      && (forall k :: k in h.counts <==> k in Column(cs, InternetService))
      && (forall k :: k in h.counts ==> h.counts[k] == multiset(Column(cs, InternetService))[k])
  {
    TallyTotal(Column(cs, InternetService));
    TallyCounts(Column(cs, InternetService));
  }

  /** The mode of a histogram is a value that occurs, and no value occurs more often. */
  lemma ModeOfTally(values: seq<string>)
    requires |values| > 0
    ensures Mode(Tally(values)) in values
    ensures forall k :: k in values ==> multiset(values)[k] <= multiset(values)[Mode(Tally(values))]
  {
    TallyCounts(values);
    forall k | k in values ensures multiset(values)[k] <= multiset(values)[Mode(Tally(values))] {
      ModeBeats(values, k);
    }
  }

  lemma ModeBeats(values: seq<string>, k: string)
    requires |values| > 0 && k in values
    ensures multiset(values)[k] <= multiset(values)[Mode(Tally(values))]
  {
    TallyCounts(values);
    ModeIsLargest(Tally(values), k);
  }

  /** No key of a histogram has a larger count than its mode. */
  lemma ModeIsLargest(h: Histogram, k: string)
    requires |h.keys| > 0 && WellFormed(h) && k in h.counts
    ensures Mode(h) in h.counts && h.counts[k] <= h.counts[Mode(h)]
  {
    var i := ModeIndex(h.keys, h.counts);
    assert k in h.keys;
    var j :| 0 <= j < |h.keys| && h.keys[j] == k;
    assert h.counts[h.keys[j]] <= h.counts[h.keys[i]];
  }

  /** The most common contract and payment method of a segment are ones some customer has, and
      no other is more frequent. */
  lemma MostCommonIsMode(cs: seq<Customer>)
    requires |cs| > 0
    ensures var col := Column(cs, Contract);
      && Analyze(cs).mostCommonContract in col
      && forall k :: k in col ==> multiset(col)[k] <= multiset(col)[Analyze(cs).mostCommonContract]
    ensures var col := Column(cs, PaymentMethod);
      && Analyze(cs).mostCommonPayment in col
      && forall k :: k in col ==> multiset(col)[k] <= multiset(col)[Analyze(cs).mostCommonPayment]
  {
    ModeOfTally(Column(cs, Contract));
    ModeOfTally(Column(cs, PaymentMethod));
  }

  // ---------------------------------------------------------------- recommendations

  /** A campaign suggestion; `discount` is `None` where the table has `null`. */
  datatype Offer = Offer(name: string, offerType: string, discount: Option<real>, description: string,
                         effectiveness: nat)

  const EmergencyRetentionOffer := Offer("Emergency Retention Offer", "Discount", Some(25.0),
    "25% discount for 6 months to retain high-risk customers", 8)
  const ContractUpgradeIncentive := Offer("Contract Upgrade Incentive", "Contract", Some(15.0),
    "15% discount for upgrading to annual contract", 7)
  const LoyaltyRewardProgram := Offer("Loyalty Reward Program", "Service", None,
    "Free premium services for 3 months", 6)
  const PaymentMethodIncentive := Offer("Payment Method Incentive", "Discount", Some(10.0),
    "10% discount for switching to automatic payments", 7)
  const PreventiveCarePackage := Offer("Preventive Care Package", "Service", None,
    "Free tech support and device protection", 5)

  /** The fixed table of `generateFallbackRecommendations`. */
  function FallbackOffers(riskLevel: string): seq<Offer>
  {
    if riskLevel == "High" then [EmergencyRetentionOffer, ContractUpgradeIncentive]
    else if riskLevel == "Medium" then [LoyaltyRewardProgram, PaymentMethodIncentive]
    else [PreventiveCarePackage]
  }

  /** `High` gets two discounts, 25% then 15%; `Medium` gets two offers; any other level exactly
      one; every offer rates its effectiveness between 1 and 10. */
  lemma FallbackOffersShape(riskLevel: string)
    ensures var r := FallbackOffers(riskLevel);
      && (riskLevel == "High" ==> |r| == 2 && r[0].discount == Some(25.0) && r[1].discount == Some(15.0))
      && (riskLevel == "Medium" ==> |r| == 2)
      && (riskLevel != "High" && riskLevel != "Medium" ==> |r| == 1 && r[0].discount.None?)
      && (forall o :: o in r ==> 1 <= o.effectiveness <= 10)
  {
  }

  /** `generateFallbackRecommendations`: the offers pushed one by one for the risk level. */
  method GenerateFallbackRecommendations(riskLevel: string) returns (recommendations: seq<Offer>)
    ensures recommendations == FallbackOffers(riskLevel)
  {
    recommendations := [];
    if riskLevel == "High" {
      recommendations := recommendations + [EmergencyRetentionOffer];
      recommendations := recommendations + [ContractUpgradeIncentive];
    } else if riskLevel == "Medium" {
      recommendations := recommendations + [LoyaltyRewardProgram];
      recommendations := recommendations + [PaymentMethodIncentive];
    } else {
      recommendations := recommendations + [PreventiveCarePackage];
    }
  }

  /** The reply of `generateCampaignRecommendations`. */
  datatype Advice = Advice(recommendations: seq<Offer>, targetCount: nat, patterns: Option<Patterns>)

  /** `generateCampaignRecommendations` for the customers of the table. `reply` is the list the
      language model's answer held, or `None` when the call or the parse of its answer threw. */
  function CampaignRecommendations(cs: seq<Customer>, riskLevel: string, reply: Option<seq<Offer>>): Advice
  {
    var segment := Segment(cs, riskLevel);
    if |segment| == 0 then Advice([], 0, None)
    else
      var patterns := Analyze(segment);
      match reply
      case Some(offers) => Advice(offers, |segment|, Some(patterns))
      case None => Advice(FallbackOffers(riskLevel), |segment|, Some(patterns))
  }

  /** An empty segment yields no offers, a target count of 0 and no analysis; otherwise the
      target count is the segment size, the analysis is of the segment, and without a model
      answer the offers are the fixed table's. */
  lemma EmptySegmentGuard(cs: seq<Customer>, riskLevel: string, reply: Option<seq<Offer>>)
    ensures var a := CampaignRecommendations(cs, riskLevel, reply);
      var n := Count(cs, Customers.RiskIs(riskLevel));
      && (n == 0 <==> a == Advice([], 0, None))
      && (n > 0 ==> a.targetCount == n && a.patterns == Some(Analyze(Segment(cs, riskLevel))))
      && (n > 0 && reply.None? ==> a.recommendations == FallbackOffers(riskLevel))
      && (n > 0 && reply.Some? ==> a.recommendations == reply.value)
  {
    FilterLength(cs, Customers.RiskIs(riskLevel));
  }

  // ---------------------------------------------------------------- updateCampaignStatus

  /** `patch(campaign._id, { isActive, successRate })`: an omitted `successRate` is written as
      `undefined`, which removes the field. */
  function WithStatus(c: RetentionCampaign, isActive: bool, successRate: Option<real>): RetentionCampaign
  {
    c.(isActive := isActive, successRate := successRate)
  }

  /** The patch sets `isActive` and `successRate` and keeps every other field, the id among them. */
  lemma WithStatusChangesOnlyStatus(c: RetentionCampaign, isActive: bool, successRate: Option<real>)
    ensures var d := WithStatus(c, isActive, successRate);
      && d.isActive == isActive && d.successRate == successRate
      && d.(isActive := c.isActive, successRate := c.successRate) == c
      && d.campaignId == c.campaignId
  {
  }

  /** `updateCampaignStatus`: the campaign with the id is patched; an unknown id throws "Campaign
      not found" (and the store throws when several share it), changing nothing. */
  method UpdateCampaignStatus(db: Database, campaignId: string, isActive: bool, successRate: Option<real>)
    returns (r: Result<(), StoreError>)
    modifies db`campaigns
    ensures var look := FindCampaign(old(db.campaigns), campaignId);
      && (look.At? ==>
            r == Ok(()) &&
            db.campaigns == old(db.campaigns)[look.index := WithStatus(old(db.campaigns)[look.index], isActive, successRate)])
      && (!look.At? ==> r == Err(LookupError(look, CampaignNotFound)) && db.campaigns == old(db.campaigns))
  {
    var look := FindCampaign(db.campaigns, campaignId);
    if !look.At? {
      return Err(LookupError(look, CampaignNotFound));
    }
    var i := look.index;
    db.campaigns := db.campaigns[i := WithStatus(db.campaigns[i], isActive, successRate)];
    r := Ok(());
  }

  /** After a status update the campaign is still found by its id at the same place. */
  lemma UpdateKeepsCampaignFindable(cs: seq<RetentionCampaign>, campaignId: string, isActive: bool,
                                    successRate: Option<real>)
    requires FindCampaign(cs, campaignId).At?
    ensures var i := FindCampaign(cs, campaignId).index;
      FindCampaign(cs[i := WithStatus(cs[i], isActive, successRate)], campaignId) == At(i)
  {
    var i := FindCampaign(cs, campaignId).index;
    FindUniqueAfterReplace(cs, c => HasCampaignId(campaignId, c), WithStatus(cs[i], isActive, successRate));
  }
}
