/** Churn-risk assessment of one customer: the rule-based fallback scorer and the two store
    mutations that record an assessment (`convex/churnPrediction.ts`). The language-model
    classifier is an oracle: its parsed reply, or `None` when the call, the JSON parse or the
    validation of the saved row failed. */
module ChurnPrediction {
  import opened Wrappers
  import opened Seqs
  import opened Schema

  /** The fields of the customer profile the fallback rules read. */
  datatype Profile = Profile(
    tenure: real,
    contract: string,
    paymentMethod: string,
    monthlyCharges: real,
    seniorCitizen: bool)

  function ProfileOf(c: Customer): Profile
  {
    Profile(c.tenure, c.contract, c.paymentMethod, c.monthlyCharges, c.seniorCitizen)
  }

  /** One assessment, as saved to the prediction history. */
  datatype Assessment = Assessment(
    churnProbability: real,
    riskLevel: string,
    keyFactors: seq<string>,
    recommendations: seq<string>,
    confidence: real)

  // ---------------------------------------------------------------- the rule table

  datatype Condition = VeryShortTenure | ShortTenure | MonthToMonthContract | ElectronicCheckPayment
                     | HighMonthlyCharges | SeniorCitizen

  /** When a rule fires. The two tenure rules are the two arms of one `if … else if`, so the
      second one's condition includes the failed test of the first. */
  predicate Fires(c: Condition, p: Profile)
  {
    match c
    case VeryShortTenure => p.tenure < 6.0
    case ShortTenure => !(p.tenure < 6.0) && p.tenure < 12.0
    case MonthToMonthContract => p.contract == "Month-to-month"
    case ElectronicCheckPayment => p.paymentMethod == "Electronic check"
    case HighMonthlyCharges => p.monthlyCharges > 80.0
    case SeniorCitizen => p.seniorCitizen
  }

  /** The points a firing rule adds. */
  function Weight(c: Condition): nat
  {
    match c
    case VeryShortTenure => 30
    case ShortTenure => 20
    case MonthToMonthContract => 25
    case ElectronicCheckPayment => 15
    case HighMonthlyCharges => 20
    case SeniorCitizen => 10
  }

  /** The key factor a firing rule reports. */
  function Factor(c: Condition): string
  {
    match c
    case VeryShortTenure => "Very short tenure (< 6 months)"
    case ShortTenure => "Short tenure (< 12 months)"
    case MonthToMonthContract => "Month-to-month contract"
    case ElectronicCheckPayment => "Electronic check payment method"
    case HighMonthlyCharges => "High monthly charges"
    case SeniorCitizen => "Senior citizen demographic"
  }

  /** The recommendation a firing rule contributes. */
  function Recommendation(c: Condition): string
  {
    match c
    case VeryShortTenure => "Implement early engagement program"
    case ShortTenure => "Provide loyalty incentives"
    case MonthToMonthContract => "Offer contract upgrade incentives"
    case ElectronicCheckPayment => "Encourage automatic payment setup"
    case HighMonthlyCharges => "Offer service optimization consultation"
    case SeniorCitizen => "Provide senior-friendly support"
  }

  /** The number of rules, and the rule at each position of the table, in the order the scorer
      tries them. */
  const RuleCount := 6

  function RuleAt(k: nat): Condition
    requires k < RuleCount
  {
    if k == 0 then VeryShortTenure
    else if k == 1 then ShortTenure
    else if k == 2 then MonthToMonthContract
    else if k == 3 then ElectronicCheckPayment
    else if k == 4 then HighMonthlyCharges
    else SeniorCitizen
  }

  const ProbabilityCap := 95
  const FallbackConfidence := 75
  const ListLimit := 3

  /** The rules among the first `k` of the table that fire for `p`, in table order. */
  function FiredUpTo(p: Profile, k: nat): seq<Condition>
    requires k <= RuleCount
  {
    if k == 0 then []
    else FiredUpTo(p, k - 1) + (if Fires(RuleAt(k - 1), p) then [RuleAt(k - 1)] else [])
  }

  function TotalWeight(rules: seq<Condition>): nat
  {
    if rules == [] then 0 else Weight(rules[0]) + TotalWeight(rules[1..])
  }

  function Factors(rules: seq<Condition>): seq<string>
  {
    seq(|rules|, i requires 0 <= i < |rules| => Factor(rules[i]))
  }

  function Recommendations(rules: seq<Condition>): seq<string>
  {
    seq(|rules|, i requires 0 <= i < |rules| => Recommendation(rules[i]))
  }

  /** All the rules that fire for `p`. */
  function Fired(p: Profile): seq<Condition>
  {
    FiredUpTo(p, RuleCount)
  }

  /** The uncapped risk score: the sum of the weights of the rules that fire. */
  function RuleScore(p: Profile): nat
  {
    TotalWeight(Fired(p))
  }

  /** The three-way bucket of a probability; the thresholds are strict and tried from the top. */
  function RiskLevelFor(probability: int): (level: string)
    ensures level == "High" <==> probability > 60
    ensures level == "Medium" <==> 30 < probability <= 60
    ensures level == "Low" <==> probability <= 30
  {
    if probability > 60 then "High" else if probability > 30 then "Medium" else "Low"
  }

  /** The assessment the rule table defines: the capped score, its bucket, the first three
      factors and recommendations in rule order, and the fixed confidence. */
  function FallbackAssessment(p: Profile): Assessment
  {
    var probability := Min(RuleScore(p), ProbabilityCap);
    Assessment(probability as real, RiskLevelFor(probability),
               Take(Factors(Fired(p)), ListLimit), Take(Recommendations(Fired(p)), ListLimit),
               FallbackConfidence as real)
  }

  /** What a rule that fires when `b` holds adds to the score and to the two lists. */
  lemma PushRule(fired: seq<Condition>, b: bool, r: Condition)
    ensures TotalWeight(fired + (if b then [r] else [])) == TotalWeight(fired) + (if b then Weight(r) else 0)
    ensures Factors(fired + (if b then [r] else [])) == Factors(fired) + (if b then [Factor(r)] else [])
    ensures Recommendations(fired + (if b then [r] else [])) ==
              Recommendations(fired) + (if b then [Recommendation(r)] else [])
  {
    TotalWeightAppend(fired, if b then [r] else []);
    assert fired + [] == fired;
  }

  /** The scorer's running state after the first `k` rules: the score and the two lists of the
      rules fired so far. */
  predicate Tracks(p: Profile, k: nat, score: int, factors: seq<string>, recommendations: seq<string>)
    requires k <= RuleCount
  {
    var fired := FiredUpTo(p, k);
    score == TotalWeight(fired) && factors == Factors(fired) && recommendations == Recommendations(fired)
  }

  /** A state that tracks the whole table gives the fallback assessment once the score is capped,
      bucketed and both lists are cut to three. This unfolds `FallbackAssessment`; it is stated so that
      the method's postcondition can name the step. */
  lemma FallbackOfTracks(p: Profile, score: int, factors: seq<string>, recommendations: seq<string>)
    requires Tracks(p, RuleCount, score, factors, recommendations)
    ensures FallbackAssessment(p) == Assessment(Min(score, 95) as real, RiskLevelFor(Min(score, 95)),
                                                Take(factors, 3), Take(recommendations, 3), 75.0)
  {
  }

  /** One rule block of the scorer, `if (fires) { riskScore += points; factors.push(…);
      recommendations.push(…) }`, for rule `c`, the one at position `k`: from a state that tracks
      the first `k` rules it makes one that tracks the first `k + 1`. The points and the two texts
      are the rule's entries in the table above. */
  method PushIf(ghost p: Profile, ghost k: nat, fires: bool, c: Condition,
                score: int, factors: seq<string>, recommendations: seq<string>)
    returns (score': int, factors': seq<string>, recommendations': seq<string>)
    requires k < RuleCount && Tracks(p, k, score, factors, recommendations)
    requires c == RuleAt(k) && fires == Fires(c, p)
    ensures Tracks(p, k + 1, score', factors', recommendations')
  {
    PushRule(FiredUpTo(p, k), fires, RuleAt(k));
    score', factors', recommendations' := score, factors, recommendations;
    if fires {
      score' := score' + Weight(c);
      factors' := factors' + [Factor(c)];
      recommendations' := recommendations' + [Recommendation(c)];
    }
  }

  /** `calculateFallbackPrediction`: the score is accumulated rule by rule, each firing rule
      pushing its factor and recommendation; the two tenure rules are the arms of one
      `if … else if`, so the second is tried only when the first did not fire. The result is
      exactly what the rule table defines. */
  method CalculateFallbackPrediction(p: Profile) returns (a: Assessment)
    ensures a == FallbackAssessment(p)
  {
    var riskScore := 0;
    var factors: seq<string> := [];
    var recommendations: seq<string> := [];
    riskScore, factors, recommendations :=
      PushIf(p, 0, p.tenure < 6.0, VeryShortTenure,
             riskScore, factors, recommendations);
    riskScore, factors, recommendations :=
      PushIf(p, 1, !(p.tenure < 6.0) && p.tenure < 12.0, ShortTenure,
             riskScore, factors, recommendations);
    riskScore, factors, recommendations :=
      PushIf(p, 2, p.contract == "Month-to-month", MonthToMonthContract,
             riskScore, factors, recommendations);
    riskScore, factors, recommendations :=
      PushIf(p, 3, p.paymentMethod == "Electronic check", ElectronicCheckPayment,
             riskScore, factors, recommendations);
    riskScore, factors, recommendations :=
      PushIf(p, 4, p.monthlyCharges > 80.0, HighMonthlyCharges,
             riskScore, factors, recommendations);
    riskScore, factors, recommendations :=
      PushIf(p, 5, p.seniorCitizen, SeniorCitizen,
             riskScore, factors, recommendations);

    var churnProbability := Min(riskScore, 95);
    var riskLevel := "Low";
    if churnProbability > 60 {
      riskLevel := "High";
    } else if churnProbability > 30 {
      riskLevel := "Medium";
    }
    FallbackOfTracks(p, riskScore, factors, recommendations);
    a := Assessment(churnProbability as real, riskLevel, Take(factors, 3), Take(recommendations, 3), 75.0);
  }

  // ---------------------------------------------------------------- properties of the rules

  /** The tenure points of the `if … else if`: 30 below six months, 20 from six to twelve, else 0. */
  function TenurePoints(tenure: real): nat
  {
    if tenure < 6.0 then 30 else if tenure < 12.0 then 20 else 0
  }

  function PointsIf(b: bool, points: nat): nat
  {
    if b then points else 0
  }

  lemma {:induction false} TotalWeightAppend(a: seq<Condition>, b: seq<Condition>)
    ensures TotalWeight(a + b) == TotalWeight(a) + TotalWeight(b)
  {
    if a == [] {
      assert a + b == b;
    } else {
      TotalWeightAppend(a[1..], b);
      assert (a + b)[1..] == a[1..] + b;
    }
  }

  /** The score after trying the rule at position `k`. */
  lemma WeightStep(p: Profile, k: nat)
    requires k < RuleCount
    ensures TotalWeight(FiredUpTo(p, k + 1)) ==
              TotalWeight(FiredUpTo(p, k)) + PointsIf(Fires(RuleAt(k), p), Weight(RuleAt(k)))
  {
    PushRule(FiredUpTo(p, k), Fires(RuleAt(k), p), RuleAt(k));
  }

  /** The score, computed from the table, is the sum of the independent contributions of the
      source: the exclusive tenure points plus one amount per remaining rule. */
  lemma RuleScoreClosedForm(p: Profile)
    ensures RuleScore(p) == TenurePoints(p.tenure) + PointsIf(Fires(MonthToMonthContract, p), 25)
      + PointsIf(Fires(ElectronicCheckPayment, p), 15) + PointsIf(p.monthlyCharges > 80.0, 20)
      + PointsIf(p.seniorCitizen, 10)
  {
    assert TotalWeight(FiredUpTo(p, 0)) == 0;
    WeightStep(p, 0);
    assert RuleAt(0) == VeryShortTenure;
    WeightStep(p, 1);
    assert RuleAt(1) == ShortTenure;
    assert TotalWeight(FiredUpTo(p, 2)) == TenurePoints(p.tenure);
    WeightStep(p, 2);
    assert RuleAt(2) == MonthToMonthContract;
    WeightStep(p, 3);
    assert RuleAt(3) == ElectronicCheckPayment;
    WeightStep(p, 4);
    assert RuleAt(4) == HighMonthlyCharges;
    WeightStep(p, 5);
    assert RuleAt(5) == SeniorCitizen;
  }

  /** At most one tenure rule fires: below 6 months only the first, from 6 to 12 only the
      second, from 12 on neither. */
  lemma TenureRulesExclusive(p: Profile)
    ensures !(Fires(VeryShortTenure, p) && Fires(ShortTenure, p))
    ensures p.tenure < 6.0 ==> Fires(VeryShortTenure, p)
    ensures 6.0 <= p.tenure < 12.0 ==> Fires(ShortTenure, p) && !Fires(VeryShortTenure, p)
    ensures p.tenure >= 12.0 ==> !Fires(VeryShortTenure, p) && !Fires(ShortTenure, p)
  {
  }

  /** The probability is the score capped at 95, so it always lies in [0, 95], and it takes the
      cap exactly when the score reaches it; the score itself never exceeds 100. */
  lemma ProbabilityBounds(p: Profile)
    ensures 0.0 <= FallbackAssessment(p).churnProbability <= 95.0
    ensures FallbackAssessment(p).churnProbability == (if RuleScore(p) >= 95 then 95 else RuleScore(p)) as real
    ensures RuleScore(p) <= 100
  {
    RuleScoreClosedForm(p);
  }

  /** The bucket follows the probability: High above 60, Medium above 30 up to 60, Low otherwise. */
  lemma RiskLevelOfFallback(p: Profile)
    ensures var a := FallbackAssessment(p);
      && (a.riskLevel == "High" <==> a.churnProbability > 60.0)
      && (a.riskLevel == "Medium" <==> 30.0 < a.churnProbability <= 60.0)
      && (a.riskLevel == "Low" <==> a.churnProbability <= 30.0)
  {
  }

  /** Each fired rule gives one factor and one recommendation, so the returned lists have the
      same length, min(number of fired rules, 3), and their i-th entries come from the same rule,
      the i-th to fire. The confidence is always 75. */
  lemma FallbackListsAligned(p: Profile)
    ensures var a := FallbackAssessment(p);
      && |a.keyFactors| == |a.recommendations| == Min(|Fired(p)|, 3)
      && (forall i :: 0 <= i < |a.keyFactors| ==>
            a.keyFactors[i] == Factor(Fired(p)[i]) && a.recommendations[i] == Recommendation(Fired(p)[i]))
      && a.confidence == 75.0
  {
    TakeProperties(Factors(Fired(p)), 3);
    TakeProperties(Recommendations(Fired(p)), 3);
  }

  /** Turning rule conditions on never lowers the score or the probability. */
  lemma ScoreMonotoneInFiredRules(p: Profile, q: Profile)
    requires forall c :: Fires(c, p) ==> Fires(c, q)
    ensures RuleScore(p) <= RuleScore(q)
    ensures FallbackAssessment(p).churnProbability <= FallbackAssessment(q).churnProbability
  {
    RuleScoreClosedForm(p);
    RuleScoreClosedForm(q);
    assert Fires(VeryShortTenure, p) ==> Fires(VeryShortTenure, q);
    assert Fires(ShortTenure, p) ==> Fires(ShortTenure, q);
    assert Fires(MonthToMonthContract, p) ==> Fires(MonthToMonthContract, q);
    assert Fires(ElectronicCheckPayment, p) ==> Fires(ElectronicCheckPayment, q);
    assert Fires(HighMonthlyCharges, p) ==> Fires(HighMonthlyCharges, q);
    assert Fires(SeniorCitizen, p) ==> Fires(SeniorCitizen, q);
  }

  /** `q` is at least as risky as `p` in every field the rules read. */
  predicate AtLeastAsRisky(q: Profile, p: Profile)
  {
    && q.tenure <= p.tenure
    && q.monthlyCharges >= p.monthlyCharges
    && (p.contract == "Month-to-month" ==> q.contract == "Month-to-month")
    && (p.paymentMethod == "Electronic check" ==> q.paymentMethod == "Electronic check")
    && (p.seniorCitizen ==> q.seniorCitizen)
  }

  /** A shorter tenure, higher charges, or switching to a month-to-month contract, to electronic
      check payment or to senior status never lowers the probability, although a shorter tenure
      can swap which tenure rule fires. */
  lemma ProbabilityMonotone(p: Profile, q: Profile)
    requires AtLeastAsRisky(q, p)
    ensures RuleScore(p) <= RuleScore(q)
    ensures FallbackAssessment(p).churnProbability <= FallbackAssessment(q).churnProbability
  {
    RuleScoreClosedForm(p);
    RuleScoreClosedForm(q);
  }

  /** The profile on which every rule that can fire together fires: 30 + 25 + 15 + 20 + 10 = 100
      points, capped at 95, "High", and only the first three factors and recommendations. */
  lemma EveryRuleFiring()
    ensures var a := FallbackAssessment(Profile(3.0, "Month-to-month", "Electronic check", 90.0, true));
      && RuleScore(Profile(3.0, "Month-to-month", "Electronic check", 90.0, true)) == 100
      && a.churnProbability == 95.0 && a.riskLevel == "High" && a.confidence == 75.0
      && a.keyFactors == ["Very short tenure (< 6 months)", "Month-to-month contract", "Electronic check payment method"]
      && a.recommendations == ["Implement early engagement program", "Offer contract upgrade incentives",
                               "Encourage automatic payment setup"]
  {
    var p := Profile(3.0, "Month-to-month", "Electronic check", 90.0, true);
    assert Fired(p) == [VeryShortTenure, MonthToMonthContract, ElectronicCheckPayment, HighMonthlyCharges, SeniorCitizen];
  }

  // ---------------------------------------------------------------- the store mutations

  function PredictionRow(customerId: string, a: Assessment, now: nat): ChurnPrediction
  {
    ChurnPrediction(customerId, now as real, a.churnProbability, a.riskLevel, a.keyFactors,
                    a.recommendations, a.confidence)
  }

  /** `savePrediction`: one new history row, stamped with the current time. */
  method SavePrediction(db: Database, customerId: string, a: Assessment, now: nat)
    modifies db`predictions
    ensures db.predictions == old(db.predictions) + [PredictionRow(customerId, a, now)]
  {
    db.predictions := db.predictions + [PredictionRow(customerId, a, now)];
  }

  /** The patch of `updateCustomerRisk`. */
  function WithRisk(c: Customer, churnProbability: real, riskLevel: string, now: nat): Customer
  {
    c.(churnProbability := Some(churnProbability), riskLevel := Some(riskLevel), lastUpdated := now as real)
  }

  /** The patch touches `churnProbability`, `riskLevel` and `lastUpdated` and nothing else. */
  lemma WithRiskChangesOnlyRisk(c: Customer, churnProbability: real, riskLevel: string, now: nat)
    ensures var d := WithRisk(c, churnProbability, riskLevel, now);
      && d.churnProbability == Some(churnProbability) && d.riskLevel == Some(riskLevel)
      && d.lastUpdated == now as real
      && d.(churnProbability := c.churnProbability, riskLevel := c.riskLevel, lastUpdated := c.lastUpdated) == c
  {
  }

  /** `updateCustomerRisk`: patches the one customer with the id; an absent id changes nothing
      and is not an error; several customers with the id make the lookup throw. */
  method UpdateCustomerRisk(db: Database, customerId: string, churnProbability: real, riskLevel: string, now: nat)
    returns (r: Result<(), StoreError>)
    modifies db`customers
    ensures var look := FindCustomer(old(db.customers), customerId);
      && (look.At? ==>
            r == Ok(()) &&
            db.customers == old(db.customers)[look.index := WithRisk(old(db.customers)[look.index], churnProbability, riskLevel, now)])
      && (look.Absent? ==> r == Ok(()) && db.customers == old(db.customers))
      && (look.Ambiguous? ==> r == Err(NotUnique) && db.customers == old(db.customers))
  {
    var look := FindCustomer(db.customers, customerId);
    match look
    case At(i) =>
      db.customers := db.customers[i := WithRisk(db.customers[i], churnProbability, riskLevel, now)];
      r := Ok(());
    case Absent =>
      r := Ok(());
    case Ambiguous =>
      r := Err(NotUnique);
  }

  /** `predictChurnForCustomer` for one customer. With a classifier reply the reply is saved and
      copied onto the customer; without one the fallback assessment is saved as a prediction but
      the customer's `churnProbability` and `riskLevel` are left as they were. */
  method PredictChurnForCustomer(db: Database, customerId: string, reply: Option<Assessment>, now: nat)
    returns (r: Result<Assessment, StoreError>)
    modifies db`customers, db`predictions
    ensures var look := FindCustomer(old(db.customers), customerId);
      && (!look.At? ==>
            r == Err(LookupError(look, CustomerNotFound)) &&
            db.customers == old(db.customers) && db.predictions == old(db.predictions))
      && (look.At? && reply.None? ==>
            var a := FallbackAssessment(ProfileOf(old(db.customers)[look.index]));
            r == Ok(a) && db.predictions == old(db.predictions) + [PredictionRow(customerId, a, now)]
            && db.customers == old(db.customers))
      && (look.At? && reply.Some? ==>
            var a := reply.value;
            var c := old(db.customers)[look.index];
            r == Ok(a) && db.predictions == old(db.predictions) + [PredictionRow(customerId, a, now)]
            && db.customers == old(db.customers)[look.index := WithRisk(c, a.churnProbability, a.riskLevel, now)])
  {
    var look := FindCustomer(db.customers, customerId);
    if !look.At? {
      return Err(LookupError(look, CustomerNotFound));
    }
    var profile := ProfileOf(db.customers[look.index]);
    match reply
    case Some(a) =>
      SavePrediction(db, customerId, a, now);
      var _ := UpdateCustomerRisk(db, customerId, a.churnProbability, a.riskLevel, now);
      r := Ok(a);
    case None =>
      var fallback := CalculateFallbackPrediction(profile);
      SavePrediction(db, customerId, fallback, now);
      r := Ok(fallback);
  }
}
