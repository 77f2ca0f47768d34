/** The scoring service object: it holds the supplier network document and the
    fitted outlier model, both fixed at construction, and evaluates requests
    against them. */
module Engine {
  import opened Schemas
  import opened Numeric
  import opened SupplierNetwork
  import opened Scoring
  import opened Seqs

  class FraudEngine {
    /** The supplier network document, loaded once at start-up and never changed. */
    const network: NetworkDocument
    /** The fitted outlier model's decision function: higher means more normal.
        The model is trained once at start-up and never retrained. */
    const decision: seq<real> -> real

    ghost predicate Valid() {
      network.Valid()
    }

    constructor (network: NetworkDocument, decision: seq<real> -> real)
      requires network.Valid()
      ensures Valid() && this.network == network && this.decision == decision
    {
      this.network := network;
      this.decision := decision;
    }

    /** The calibrated anomaly score of the request's six numeric features. */
    function Anomaly(req: FraudEvaluationRequest): (a: real)
      ensures 0.0 <= a <= 1.0
    {
      AnomalyScore(decision(FeatureVector(req)))
    }

    /** The network score against this engine's suppliers. */
    function Network(req: FraudEvaluationRequest): (n: real)
      ensures 0.0 <= n <= 1.0
      ensures !HasEntry(SuppliersOf(network), req.supplierId) ==> n == 0.3
    {
      NetworkScore(SuppliersOf(network), req)
    }

    /** Accumulates the rule increments one guarded step at a time, then clips. */
    method RuleScore(req: FraudEvaluationRequest) returns (score: real)
      ensures score == RuleTotal(req)
      ensures score == WeightedSum(RuleConditions(req), RuleWeights)
      ensures 0.0 <= score <= 1.0
    {
      // After each guarded step, `score` is the weighted sum over the
      // conditions examined so far.
      ghost var c, w := RuleConditions(req), RuleWeights;
      score := 0.0;
      if req.sanctionsHit {
        score := score + 0.45;
      }
      WeightedSumSnoc(c, w, 0);
      if req.beneficialOwnerMismatch {
        score := score + 0.2;
      }
      WeightedSumSnoc(c, w, 1);
      if req.splitInvoicePattern {
        score := score + 0.15;
      }
      WeightedSumSnoc(c, w, 2);
      if req.shipmentDelayHours > 36.0 {
        score := score + 0.1;
      }
      WeightedSumSnoc(c, w, 3);
      if req.invoiceAmount > req.contractValue * 0.85 {
        score := score + 0.1;
      }
      WeightedSumSnoc(c, w, 4);
      assert c[..5] == c && w[..5] == w;
      RuleClipIsIdle(req);
      score := Clip01(score);
    }

    /** Scores one request: the three sub-scores, their weighted composite, its
        band and recommendation, and the reason codes. */
    method Evaluate(req: FraudEvaluationRequest) returns (resp: FraudEvaluationResponse)
      ensures resp.transactionId == req.transactionId
      ensures resp.scoreBreakdown == ScoreBreakdown(Anomaly(req), RuleTotal(req), Network(req))
      ensures resp.riskScore == RiskScore(Anomaly(req), RuleTotal(req), Network(req))
      ensures resp.riskBand == BandOf(resp.riskScore).Name()
      ensures resp.recommendation == Recommendation(BandOf(resp.riskScore))
      ensures resp.reasonCodes == ReasonCodes(AlertConditions(
        Anomaly(req), RuleTotal(req), Network(req), req.sanctionsHit, req.splitInvoicePattern))
      ensures 0.0 <= resp.riskScore <= 1.0 && |resp.reasonCodes| >= 1
    {
      var anomaly := AnomalyScore(decision(FeatureVector(req)));
      var rule := RuleScore(req);
      var networkScore := NetworkScore(SuppliersOf(network), req);

      var weighted := anomaly * 0.44 + rule * 0.28 + networkScore * 0.28;
      var riskScore := Clip01(weighted);
      var band := BandOf(riskScore);

      var codes := CollectReasonCodes(anomaly, rule, networkScore, req.sanctionsHit, req.splitInvoicePattern);

      RecommendationEntry(band);
      var recommendation := Recommendations[band.Name()];

      resp := FraudEvaluationResponse(
        req.transactionId, riskScore, band.Name(),
        ScoreBreakdown(anomaly, rule, networkScore), codes, recommendation);
    }

    /** The reason-code list of an evaluation, built by successive appends in
        the fixed order, with the fallback code when nothing fires. */
    method CollectReasonCodes(anomaly: real, rule: real, network: real, sanctionsHit: bool, splitInvoicePattern: bool)
      returns (codes: seq<string>)
      ensures codes == ReasonCodes(AlertConditions(anomaly, rule, network, sanctionsHit, splitInvoicePattern))
    {
      // After each guarded append, `codes` holds the alert codes fired among
      // the conditions examined so far, in order.
      ghost var c := AlertConditions(anomaly, rule, network, sanctionsHit, splitInvoicePattern);
      codes := [];
      if anomaly > 0.6 {
        codes := codes + [AnomalousTransactionPattern];
      }
      assert codes == AppendFlagged(AlertCodes, c, 1);
      if rule > 0.4 {
        codes := codes + [RuleAlertTriggered];
      }
      assert codes == AppendFlagged(AlertCodes, c, 2);
      if network > 0.55 {
        codes := codes + [SupplierNetworkRiskPropagation];
      }
      assert codes == AppendFlagged(AlertCodes, c, 3);
      if sanctionsHit {
        codes := codes + [SanctionsProximity];
      }
      assert codes == AppendFlagged(AlertCodes, c, 4);
      if splitInvoicePattern {
        codes := codes + [InvoiceSplittingSignal];
      }
      assert codes == AppendFlagged(AlertCodes, c, 5);
      AppendFlaggedIsSelect(AlertCodes, c, 5);
      assert AlertCodes[..5] == AlertCodes && c[..5] == c;
      if codes == [] {
        codes := codes + [NoMaterialAlerts];
      }
    }

    /** Evaluating the same request twice gives identical responses: nothing
        in an evaluation is random or stateful. */
    method EvaluateTwice(req: FraudEvaluationRequest) returns (first: FraudEvaluationResponse, second: FraudEvaluationResponse)
      ensures first == second
    {
      first := Evaluate(req);
      second := Evaluate(req);
    }

    /** The aggregate view of the supplier network. */
    function NetworkSummary(): (r: Summary)
      requires Valid()
      ensures r.totalSuppliers == |SuppliersOf(network).ids|
    {
      SummaryTotal(SuppliersOf(network));
      Summarize(SuppliersOf(network))
    }
  }
}
