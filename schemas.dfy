/** The request and response shapes of the fraud-evaluation API and the field
    bounds that the request model declares. Floats are modelled as `real`,
    Python `int` fields as `int`. */
module Schemas {

  /** One supply-chain transaction submitted for scoring. */
  datatype FraudEvaluationRequest = FraudEvaluationRequest(
    transactionId: string,
    supplierId: string,
    buyerId: string,
    invoiceAmount: real,
    invoiceCurrency: string,
    invoiceCountLast30d: int,
    shipmentDistanceKm: real,
    shipmentDelayHours: real,
    paymentTermDays: int,
    contractValue: real,
    countryRiskIndex: real,
    sanctionsHit: bool,
    beneficialOwnerMismatch: bool,
    splitInvoicePattern: bool,
    tierLevel: int)

  /** The declared field bounds: every amount, count, distance, delay and term
      is non-negative, the country risk index lies in [0,1] and the tier level
      is one of 1..6. The identifiers and the currency are unconstrained. */
  predicate ValidRequest(req: FraudEvaluationRequest) {
    && req.invoiceAmount >= 0.0
    && req.invoiceCountLast30d >= 0
    && req.shipmentDistanceKm >= 0.0
    && req.shipmentDelayHours >= 0.0
    && req.paymentTermDays >= 0
    && req.contractValue >= 0.0
    && 0.0 <= req.countryRiskIndex <= 1.0
    && 1 <= req.tierLevel <= 6
  }

  const DefaultCurrency: string := "USD"

  /** A request built from its required fields only: the currency and the
      three boolean flags take their declared defaults. */
  function NewRequest(
    transactionId: string, supplierId: string, buyerId: string,
    invoiceAmount: real, invoiceCountLast30d: int, shipmentDistanceKm: real,
    shipmentDelayHours: real, paymentTermDays: int, contractValue: real,
    countryRiskIndex: real, tierLevel: int): (req: FraudEvaluationRequest)
    ensures req.invoiceCurrency == "USD"
    ensures !req.sanctionsHit && !req.beneficialOwnerMismatch && !req.splitInvoicePattern
    ensures req.transactionId == transactionId && req.supplierId == supplierId && req.buyerId == buyerId
    ensures req.tierLevel == tierLevel && req.countryRiskIndex == countryRiskIndex
    ensures ValidRequest(req) <==>
      && invoiceAmount >= 0.0 && invoiceCountLast30d >= 0 && shipmentDistanceKm >= 0.0
      && shipmentDelayHours >= 0.0 && paymentTermDays >= 0 && contractValue >= 0.0
      && 0.0 <= countryRiskIndex <= 1.0 && 1 <= tierLevel <= 6
  {
    FraudEvaluationRequest(
      transactionId, supplierId, buyerId, invoiceAmount, DefaultCurrency,
      invoiceCountLast30d, shipmentDistanceKm, shipmentDelayHours, paymentTermDays,
      contractValue, countryRiskIndex, false, false, false, tierLevel)
  }

  /** The three sub-scores reported with every evaluation. */
  datatype ScoreBreakdown = ScoreBreakdown(
    anomalyScore: real,
    ruleScore: real,
    networkScore: real)

  /** The verdict returned for one request. */
  datatype FraudEvaluationResponse = FraudEvaluationResponse(
    transactionId: string,
    riskScore: real,
    riskBand: string,
    scoreBreakdown: ScoreBreakdown,
    reasonCodes: seq<string>,
    recommendation: string)
}
