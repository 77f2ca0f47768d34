/** The deterministic scoring steps of the fraud engine: the anomaly remap,
    the additive rule score, the weighted composite, its risk band and
    recommendation, and the reason codes explaining a verdict. */
module Scoring {
  import opened Seqs
  import opened Numeric
  import opened Schemas

  // ---------------------------------------------------------------------------
  // Anomaly score

  /** The six numeric features fed to the outlier model, in training-column
      order. */
  function FeatureVector(req: FraudEvaluationRequest): seq<real> {
    [req.invoiceAmount, req.invoiceCountLast30d as real, req.shipmentDistanceKm,
     req.shipmentDelayHours, req.paymentTermDays as real, req.countryRiskIndex]
  }

  /** The fixed calibration `clip((0.35 - raw) / 0.7, 0, 1)` of the model's raw
      decision value (higher raw = more normal). */
  function AnomalyScore(raw: real): (a: real)
    ensures 0.0 <= a <= 1.0
    ensures raw <= -0.35 ==> a == 1.0
    ensures raw >= 0.35 ==> a == 0.0
    ensures -0.35 < raw < 0.35 ==> 0.0 < a < 1.0
  {
    Clip01((0.35 - raw) / 0.7)
  }

  /** A more normal raw value never yields a higher anomaly score. */
  lemma AnomalyScoreNonIncreasing(raw1: real, raw2: real)
    requires raw1 <= raw2
    ensures AnomalyScore(raw2) <= AnomalyScore(raw1)
  {
    ClipMonotone((0.35 - raw2) / 0.7, (0.35 - raw1) / 0.7);
  }

  // ---------------------------------------------------------------------------
  // Rule score

  /** Increments for: sanctions hit, beneficial-owner mismatch, split-invoice
      pattern, delay over 36 hours, invoice over 85% of the contract value. */
  const RuleWeights: seq<real> := [0.45, 0.2, 0.15, 0.1, 0.1]

  /** Which of the five rule conditions hold, in the order of `RuleWeights`. */
  function RuleConditions(req: FraudEvaluationRequest): (c: seq<bool>)
    ensures |c| == |RuleWeights|
  {
    [req.sanctionsHit, req.beneficialOwnerMismatch, req.splitInvoicePattern,
     req.shipmentDelayHours > 36.0, req.invoiceAmount > req.contractValue * 0.85]
  }

  /** The clipped sum of the increments of the conditions that hold. */
  function RuleTotal(req: FraudEvaluationRequest): (r: real)
    ensures 0.0 <= r <= 1.0
  {
    Clip01(WeightedSum(RuleConditions(req), RuleWeights))
  }

  lemma RuleWeightsSumToOne()
    ensures NonNegative(RuleWeights) && Sum(RuleWeights) == 1.0
  {
    var w := RuleWeights;
    assert w[1..] == [0.2, 0.15, 0.1, 0.1];
    assert w[1..][1..] == [0.15, 0.1, 0.1];
    assert w[1..][1..][1..] == [0.1, 0.1];
    assert w[1..][1..][1..][1..] == [0.1];
    assert Sum([0.1]) == 0.1 + Sum([]);
  }

  /** The increments sum to exactly 1, so the clip never changes the sum. */
  lemma RuleClipIsIdle(req: FraudEvaluationRequest)
    ensures RuleTotal(req) == WeightedSum(RuleConditions(req), RuleWeights)
    ensures 0.0 <= WeightedSum(RuleConditions(req), RuleWeights) <= 1.0
  {
    RuleWeightsSumToOne();
    WeightedSumBounds(RuleConditions(req), RuleWeights);
  }

  /** Turning one condition from false to true adds exactly its increment. */
  lemma RuleTotalFlip(req1: FraudEvaluationRequest, req2: FraudEvaluationRequest, i: int)
    requires 0 <= i < |RuleWeights| && !RuleConditions(req1)[i]
    requires RuleConditions(req2) == RuleConditions(req1)[i := true]
    ensures RuleTotal(req2) == RuleTotal(req1) + RuleWeights[i]
  {
    RuleClipIsIdle(req1);
    RuleClipIsIdle(req2);
    WeightedSumFlip(RuleConditions(req1), RuleWeights, i);
  }

  /** Whenever every condition that holds for `req1` also holds for `req2`,
      `req2` scores at least as high. */
  lemma RuleTotalMonotone(req1: FraudEvaluationRequest, req2: FraudEvaluationRequest)
    requires forall i :: 0 <= i < |RuleWeights| ==> RuleConditions(req1)[i] ==> RuleConditions(req2)[i]
    ensures RuleTotal(req1) <= RuleTotal(req2)
  {
    RuleWeightsSumToOne();
    WeightedSumMonotone(RuleConditions(req1), RuleConditions(req2), RuleWeights);
    ClipMonotone(WeightedSum(RuleConditions(req1), RuleWeights), WeightedSum(RuleConditions(req2), RuleWeights));
  }

  /** A sanctions hit alone, with no delay and nothing invoiced, scores 0.45. */
  lemma RuleTotalSanctionsOnly(req: FraudEvaluationRequest)
    requires req.sanctionsHit && !req.beneficialOwnerMismatch && !req.splitInvoicePattern
    requires req.shipmentDelayHours == 0.0 && req.invoiceAmount == 0.0 && req.contractValue == 0.0
    ensures RuleTotal(req) == 0.45
  {
    var none := [false, false, false, false, false];
    WeightedSumNoneSet(none, RuleWeights);
    assert RuleConditions(req) == none[0 := true];
    RuleClipIsIdle(req);
    WeightedSumFlip(none, RuleWeights, 0);
  }

  /** When no condition holds the rule score is 0. */
  lemma RuleTotalNoneHold(req: FraudEvaluationRequest)
    requires forall i :: 0 <= i < |RuleWeights| ==> !RuleConditions(req)[i]
    ensures RuleTotal(req) == 0.0
  {
    WeightedSumNoneSet(RuleConditions(req), RuleWeights);
  }

  // ---------------------------------------------------------------------------
  // Composite score and band

  /** `clip(0.44 anomaly + 0.28 rule + 0.28 network, 0, 1)`. */
  function RiskScore(anomaly: real, rule: real, network: real): (s: real)
    ensures 0.0 <= s <= 1.0
  {
    Clip01(anomaly * 0.44 + rule * 0.28 + network * 0.28)
  }

  /** The weights sum to 1, so for unit sub-scores the clip is the identity. */
  lemma RiskScoreUnclipped(anomaly: real, rule: real, network: real)
    requires 0.0 <= anomaly <= 1.0 && 0.0 <= rule <= 1.0 && 0.0 <= network <= 1.0
    ensures RiskScore(anomaly, rule, network) == 0.44 * anomaly + 0.28 * rule + 0.28 * network
  {
  }

  /** Raising any sub-score never lowers the composite. */
  lemma RiskScoreMonotone(a1: real, r1: real, n1: real, a2: real, r2: real, n2: real)
    requires a1 <= a2 && r1 <= r2 && n1 <= n2
    ensures RiskScore(a1, r1, n1) <= RiskScore(a2, r2, n2)
  {
    ClipMonotone(a1 * 0.44 + r1 * 0.28 + n1 * 0.28, a2 * 0.44 + r2 * 0.28 + n2 * 0.28);
  }

  datatype RiskBand = Low | Medium | High | Critical
  {
    /** The band's name as it appears in a response. */
    function Name(): string {
      match this
      case Low => "Low"
      case Medium => "Medium"
      case High => "High"
      case Critical => "Critical"
    }

    /** Position in the order Low < Medium < High < Critical. */
    function Rank(): nat {
      match this
      case Low => 0
      case Medium => 1
      case High => 2
      case Critical => 3
    }
  }

  /** Thresholds with inclusive lower bounds, tested from the highest down. */
  function BandOf(score: real): (b: RiskBand)
    ensures b == Critical <==> score >= 0.78
    ensures b == High <==> 0.58 <= score < 0.78
    ensures b == Medium <==> 0.36 <= score < 0.58
    ensures b == Low <==> score < 0.36
  {
    if score >= 0.78 then Critical
    else if score >= 0.58 then High
    else if score >= 0.36 then Medium
    else Low
  }

  /** A higher score never falls into a lower band. */
  lemma BandMonotone(s1: real, s2: real)
    requires s1 <= s2
    ensures BandOf(s1).Rank() <= BandOf(s2).Rank()
  {
  }

  /** Distinct bands have distinct names, so a response's band string
      identifies the band. */
  lemma BandNamesDistinct(b1: RiskBand, b2: RiskBand)
    requires b1 != b2
    ensures b1.Name() != b2.Name()
  {
    assert b1.Name()[0] != b2.Name()[0];
  }

  /** The recommendation table, keyed by band name. */
  const Recommendations: map<string, string> := map[
    "Critical" := "Block payment, run enhanced due diligence, and notify compliance immediately.",
    "High" := "Hold transaction, request ownership proof, and perform manual review.",
    "Medium" := "Approve conditionally and monitor counterparty activity for 30 days.",
    "Low" := "Approve with standard controls."]

  /** Every band's name is a key of the table, and distinct bands get distinct
      recommendations. */
  lemma RecommendationTotalAndDistinct(b1: RiskBand, b2: RiskBand)
    ensures b1.Name() in Recommendations
    ensures b1 != b2 ==> Recommendations[b1.Name()] != Recommendations[b2.Name()]
  {
    RecommendationEntry(b1);
    RecommendationEntry(b2);
  }

  /** The key of each band is found, and the entries have pairwise different
      lengths (77, 69, 68 and 31 characters). */
  lemma RecommendationEntry(b: RiskBand)
    ensures b.Name() in Recommendations
    ensures |Recommendations[b.Name()]| ==
      match b case Critical => 77 case High => 69 case Medium => 68 case Low => 31
  {
    assert |"Critical"| == 8 && |"High"| == 4 && |"Medium"| == 6 && |"Low"| == 3;
  }

  function Recommendation(b: RiskBand): string {
    RecommendationTotalAndDistinct(b, b);
    Recommendations[b.Name()]
  }

  // ---------------------------------------------------------------------------
  // Reason codes

  const AnomalousTransactionPattern: string := "ANOMALOUS_TRANSACTION_PATTERN"
  const RuleAlertTriggered: string := "RULE_ALERT_TRIGGERED"
  const SupplierNetworkRiskPropagation: string := "SUPPLIER_NETWORK_RISK_PROPAGATION"
  const SanctionsProximity: string := "SANCTIONS_PROXIMITY"
  const InvoiceSplittingSignal: string := "INVOICE_SPLITTING_SIGNAL"
  const NoMaterialAlerts: string := "NO_MATERIAL_ALERTS"

  /** The five alert codes in the fixed order in which they are emitted. */
  const AlertCodes: seq<string> := [
    AnomalousTransactionPattern, RuleAlertTriggered, SupplierNetworkRiskPropagation,
    SanctionsProximity, InvoiceSplittingSignal]

  /** Which alerts fire, in the order of `AlertCodes`. */
  function AlertConditions(anomaly: real, rule: real, network: real,
                           sanctionsHit: bool, splitInvoicePattern: bool): (c: seq<bool>)
    ensures |c| == |AlertCodes|
  {
    [anomaly > 0.6, rule > 0.4, network > 0.55, sanctionsHit, splitInvoicePattern]
  }

  /** The fired alert codes in fixed order, or the fallback code alone. */
  function ReasonCodes(conditions: seq<bool>): (codes: seq<string>)
    requires |conditions| == |AlertCodes|
    ensures |codes| >= 1
  {
    var fired := Select(AlertCodes, conditions);
    if fired == [] then [NoMaterialAlerts] else fired
  }

  lemma AlertCodesDistinct()
    ensures Distinct(AlertCodes) && NoMaterialAlerts !in AlertCodes
  {
    var a := AlertCodes;
    forall i, j | 0 <= i < j < |a| ensures a[i] != a[j] {
      assert a[i][0] != a[j][0] || a[i][1] != a[j][1];
    }
    forall i | 0 <= i < |a| ensures a[i] != NoMaterialAlerts {
      assert a[i][0] != NoMaterialAlerts[0];
    }
  }

  /** The fallback is emitted, alone, exactly when no alert condition holds. */
  lemma ReasonCodesFallback(conditions: seq<bool>)
    requires |conditions| == |AlertCodes|
    ensures ReasonCodes(conditions) == [NoMaterialAlerts] <==> forall i :: 0 <= i < |conditions| ==> !conditions[i]
    ensures NoMaterialAlerts in ReasonCodes(conditions) <==> forall i :: 0 <= i < |conditions| ==> !conditions[i]
  {
    AlertCodesDistinct();
    SelectEmpty(AlertCodes, conditions);
    SelectContains(AlertCodes, conditions, NoMaterialAlerts);
  }

  /** Each alert code is present exactly when its condition holds. */
  lemma ReasonCodesMembership(conditions: seq<bool>, i: int)
    requires |conditions| == |AlertCodes| && 0 <= i < |AlertCodes|
    ensures AlertCodes[i] in ReasonCodes(conditions) <==> conditions[i]
  {
    AlertCodesDistinct();
    SelectMember(AlertCodes, conditions, i);
    assert AlertCodes[i] != NoMaterialAlerts;
  }

  /** No code repeats, and the codes appear in the fixed order. */
  lemma ReasonCodesOrdered(conditions: seq<bool>)
    requires |conditions| == |AlertCodes|
    ensures Distinct(ReasonCodes(conditions))
    ensures ReasonCodes(conditions) == [NoMaterialAlerts] || IsSubsequence(ReasonCodes(conditions), AlertCodes)
  {
    AlertCodesDistinct();
    SelectDistinct(AlertCodes, conditions);
    SelectIsSubsequence(AlertCodes, conditions);
  }

  /** A sanctions hit alone, with no delay and nothing invoiced, raises both
      the rule alert (0.45 > 0.4) and the sanctions code. */
  lemma SanctionsOnlyReasons(req: FraudEvaluationRequest, anomaly: real, network: real)
    requires req.sanctionsHit && !req.beneficialOwnerMismatch && !req.splitInvoicePattern
    requires req.shipmentDelayHours == 0.0 && req.invoiceAmount == 0.0 && req.contractValue == 0.0
    ensures var codes := ReasonCodes(AlertConditions(anomaly, RuleTotal(req), network, true, false));
      RuleAlertTriggered in codes && SanctionsProximity in codes && InvoiceSplittingSignal !in codes
  {
    RuleTotalSanctionsOnly(req);
    var c := AlertConditions(anomaly, RuleTotal(req), network, true, false);
    ReasonCodesMembership(c, 1);
    ReasonCodesMembership(c, 3);
    ReasonCodesMembership(c, 4);
  }
}
