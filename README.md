# SentinelChain fraud-scoring engine, modelled in Dafny

This project models the scoring core of SentinelChain AI: the `FraudEngine`
service, which gives one supply-chain transaction a composite fraud-risk score,
and the request and response schemas it serves. The engine combines three
signals:

- an **anomaly score**: the raw decision value of a pre-trained outlier model,
  remapped into [0,1];
- a **rule score**: fixed increments for five explicit risk conditions;
- a **network score**: the supplier's own risk blended with its upstream
  suppliers' risk, tier pressure and country risk.

Their weighted sum is clipped and banded (Low, Medium, High, Critical). The
engine then adds reason codes and a recommendation looked up by band. A second
operation summarises the static supplier network.

Modules, leaf first:

- `Seqs` (seqs.dfy): no-duplicates, order-preserving sublists, and `Select`,
  the list comprehension with an `if` clause. Also `AppendFlagged`, the same
  list built by successive appends, proved equal to `Select`.
- `Numeric` (numeric.dfy): `np.clip(x, 0, 1)`, sums, means, and the
  flag-weighted sum behind the rule score.
- `Schemas` (schemas.dfy): `FraudEvaluationRequest` with its declared bounds
  (`ValidRequest`) and defaults, plus `ScoreBreakdown` and
  `FraudEvaluationResponse`.
- `SupplierNetwork` (network.dfy): supplier entries whose fields are all
  optional, the insertion-ordered supplier dictionary, the network score, and
  the network summary.
- `Scoring` (scoring.dfy): the anomaly remap, the rule total, the composite
  score, the band, the recommendation table and the reason codes.
- `Engine` (engine.dfy): class `FraudEngine`. Its two `const` fields are the
  network document and the fitted model's decision function, both fixed at
  construction. `RuleScore` is a method that adds up guarded increments.
  `Evaluate` is a method that builds the reason-code list by successive
  appends.

Modelling decisions:

- All arithmetic is on `real`, so thresholds such as `> 36`, `>= 0.78` and
  `> 0.85 * contract_value` are exact.
- A Python dict is an insertion-ordered map. It is modelled as `ids` (the
  iteration order) plus `nodes` (a `map`). `Suppliers.Valid()` requires the ids
  to be distinct and to be exactly the map's keys.
- Defaults are applied when a field is read. `base_risk` defaults to 0.3, but
  to 0 in the critical-supplier filter. `tier` defaults to 1. `upstream`
  defaults to the empty list.
- A supplier entry that is an empty dictionary is falsy in Python. The network
  score therefore treats it like an unknown supplier. `SupplierNode.otherFields`
  records any further keys, because an entry holding only unrelated keys is
  truthy.
- A document without a `"suppliers"` key behaves as an empty network
  (`SuppliersOf`).

Two behaviours of the code are easy to misread; the model follows the code:

- Upstream ids that are missing from the network are not skipped. Each one
  contributes 0.3 and counts in the divisor `len(upstream)`
  (backend/app/services/fraud_engine.py:95). `UpstreamMissingCountsInDivisor`
  shows the difference: the code gives 0.65 where skipping would give 1.0.
- `transaction_id` is a required field, but the schema declares no length
  bound for it. `ValidRequest` does not require it to be non-empty.

## Model

| member | source | states |
|---|---|---|
| Schemas.NewRequest | backend/app/models/schemas.py:6-21 | a request built from its required fields has currency "USD" and all three flags false; it satisfies the declared bounds exactly when its amounts, counts, distance, delay and terms are non-negative, its country risk is in [0,1] and its tier is in 1..6 |
| Numeric.Clip01 | backend/app/services/fraud_engine.py:84 | `np.clip(x, 0, 1)` lands in [0,1], is the identity inside it and saturates at each end |
| Scoring.AnomalyScore | backend/app/services/fraud_engine.py:69 | the calibrated anomaly score lies in [0,1]; it is 1 for raw <= -0.35, 0 for raw >= 0.35 and strictly between them otherwise |
| Scoring.AnomalyScoreNonIncreasing | backend/app/services/fraud_engine.py:68-70 | a more normal (higher) raw decision value never gives a higher anomaly score |
| Engine.FraudEngine.Anomaly | backend/app/services/fraud_engine.py:55-70 | the engine's anomaly score of a request (the model applied to its six numeric features, then remapped) lies in [0,1] |
| Engine.FraudEngine.RuleScore | backend/app/services/fraud_engine.py:72-84 | the guarded `+=` steps followed by the clip give the weighted sum of the increments of the conditions that hold, which is the rule total and lies in [0,1] |
| Scoring.RuleTotal | backend/app/services/fraud_engine.py:72-84 | the rule score lies in [0,1] |
| Scoring.RuleWeightsSumToOne | backend/app/services/fraud_engine.py:74-83 | the five increments 0.45, 0.2, 0.15, 0.1, 0.1 are non-negative and sum to exactly 1 |
| Scoring.RuleClipIsIdle | backend/app/services/fraud_engine.py:84 | the clip never changes the rule sum, which always lies in [0,1] |
| Scoring.RuleTotalFlip | backend/app/services/fraud_engine.py:72-84 | turning one rule condition from false to true raises the rule score by exactly that condition's increment |
| Scoring.RuleTotalMonotone | backend/app/services/fraud_engine.py:72-84 | if every condition that holds for one request also holds for another, the second scores at least as high |
| Scoring.RuleTotalNoneHold | backend/app/services/fraud_engine.py:73 | the rule score is 0 when no condition holds |
| Scoring.RuleTotalSanctionsOnly | backend/app/services/fraud_engine.py:74-75 | a sanctions hit alone, with zero delay and nothing invoiced, scores exactly 0.45 |
| SupplierNetwork.SuppliersOf | backend/app/services/fraud_engine.py:87 | the supplier mapping of a valid document is valid, and a document without a "suppliers" key yields the empty network |
| SupplierNetwork.NetworkScore | backend/app/services/fraud_engine.py:86-103 | the network score lies in [0,1], and it is exactly 0.3 when the supplier is absent or its entry is an empty dictionary |
| SupplierNetwork.NetworkScoreForValidRequest | backend/app/services/fraud_engine.py:100-103 | for a valid request and a known supplier, the score is clip(0.45·intrinsic + 0.35·upstream average + 0.2·tier/6 + 0.35·country risk), so the tier cap never bites |
| SupplierNetwork.NetworkScoreWithoutUpstream | backend/app/services/fraud_engine.py:92-98 | with an empty or absent upstream list, the upstream average equals the supplier's own base risk, so the score is clip(0.8·intrinsic + 0.2·tier pressure + 0.35·country risk) |
| SupplierNetwork.UpstreamAverageInUnit | backend/app/services/fraud_engine.py:92-98 | when every base risk lies in [0,1], so does the upstream average |
| SupplierNetwork.UpstreamAllMissing | backend/app/services/fraud_engine.py:95 | an upstream list none of whose ids is in the network averages exactly 0.3: missing ids count as 0.3 and count in the divisor |
| SupplierNetwork.UpstreamMissingCountsInDivisor | backend/app/services/fraud_engine.py:94-98 | a known upstream supplier of risk 1.0 next to an unknown id averages 0.65, not the 1.0 that skipping the unknown id would give |
| SupplierNetwork.NetworkScoreExample | backend/app/services/fraud_engine.py:92-103 | supplier SUP-108 with base risk 0.8, tier 3 and no upstream, scored for a tier-3 request with country risk 0.5, gives network score 0.915 |
| SupplierNetwork.MissingSuppliersKey | backend/app/services/fraud_engine.py:87-90 | against a document without a "suppliers" key, every request scores 0.3 |
| Engine.FraudEngine.Network | backend/app/services/fraud_engine.py:86-103 | the engine's network score lies in [0,1] and is 0.3 for a supplier that is unknown or has an empty entry |
| Scoring.RiskScore | backend/app/services/fraud_engine.py:120-121 | the composite risk score lies in [0,1] |
| Scoring.RiskScoreUnclipped | backend/app/services/fraud_engine.py:120-121 | when all three sub-scores lie in [0,1], the clip is the identity: the risk score is 0.44a + 0.28r + 0.28n |
| Scoring.RiskScoreMonotone | backend/app/services/fraud_engine.py:120-121 | raising any sub-score never lowers the risk score |
| Scoring.BandOf | backend/app/services/fraud_engine.py:105-113 | the band is Critical iff score >= 0.78, High iff 0.58 <= score < 0.78, Medium iff 0.36 <= score < 0.58, and Low iff score < 0.36 |
| Scoring.BandMonotone | backend/app/services/fraud_engine.py:105-113 | a higher score never falls into a lower band |
| Scoring.BandNamesDistinct | backend/app/services/fraud_engine.py:106-113 | distinct bands have distinct names, so the band string in a response identifies the band |
| Scoring.RecommendationEntry | backend/app/services/fraud_engine.py:138-143 | every band's name is a key of the recommendation table, so the lookup never fails |
| Scoring.RecommendationTotalAndDistinct | backend/app/services/fraud_engine.py:138-143 | the recommendation is defined for every band, and distinct bands get distinct recommendations |
| Scoring.ReasonCodes | backend/app/services/fraud_engine.py:124-136 | the reason-code list is never empty |
| Scoring.AlertCodesDistinct | backend/app/services/fraud_engine.py:125-136 | the five alert codes are pairwise distinct, and none of them is the fallback code |
| Scoring.ReasonCodesFallback | backend/app/services/fraud_engine.py:135-136 | the list is exactly ["NO_MATERIAL_ALERTS"] iff none of the five conditions holds, and the fallback code appears only then |
| Scoring.ReasonCodesMembership | backend/app/services/fraud_engine.py:125-134 | each alert code is in the list iff its condition holds (anomaly > 0.6, rule > 0.4, network > 0.55, sanctions hit, split-invoice pattern) |
| Scoring.ReasonCodesOrdered | backend/app/services/fraud_engine.py:124-136 | no code repeats, and unless the fallback is emitted the codes appear in the fixed order |
| Scoring.SanctionsOnlyReasons | backend/app/services/fraud_engine.py:127-134 | a sanctions hit alone raises both RULE_ALERT_TRIGGERED and SANCTIONS_PROXIMITY, and not INVOICE_SPLITTING_SIGNAL |
| Engine.FraudEngine.CollectReasonCodes | backend/app/services/fraud_engine.py:124-136 | the guarded appends, then the fallback append when the list is still empty, produce exactly the reason codes specified by `ReasonCodes` |
| Engine.FraudEngine.Evaluate | backend/app/services/fraud_engine.py:115-156 | the response carries the request's transaction id; the anomaly, rule and network sub-scores; their clipped weighted sum; that score's band name and recommendation; and the specified reason codes. The risk score lies in [0,1] and the reason-code list is non-empty |
| Engine.FraudEngine.EvaluateTwice | backend/app/services/fraud_engine.py:115-156 | evaluating the same request twice gives identical responses |
| Engine.FraudEngine.constructor | backend/app/services/fraud_engine.py:13-20 | the engine holds the given network document and decision function; neither changes afterwards |
| Engine.FraudEngine.NetworkSummary | backend/app/services/fraud_engine.py:158-167 | the reported supplier count is the number of suppliers in the network |
| SupplierNetwork.MaxOf | backend/app/services/fraud_engine.py:164 | the maximum of a non-empty list bounds every element and is one of them |
| SupplierNetwork.SupplierCount | backend/app/services/fraud_engine.py:163 | the supplier dictionary has exactly one key per id in its iteration order |
| SupplierNetwork.SummaryTotal | backend/app/services/fraud_engine.py:163 | `total_suppliers` is the number of suppliers |
| SupplierNetwork.SummaryMaxTier | backend/app/services/fraud_engine.py:160-164 | `max_tier` is 1 for an empty network; otherwise it is at least every node's tier (default 1) and equals some node's tier |
| SupplierNetwork.SummaryAverage | backend/app/services/fraud_engine.py:161 | dividing by max(n, 1) makes the average 0 for an empty network; when every base risk (default 0.3) lies in [0,1], so does the average |
| SupplierNetwork.SummaryCritical | backend/app/services/fraud_engine.py:166 | `critical_suppliers` is an order-preserving, duplicate-free sublist of the ids containing exactly the suppliers whose base risk (default 0) exceeds 0.75 |
| SupplierNetwork.MissingSuppliersSummary | backend/app/services/fraud_engine.py:159-167 | a document without a "suppliers" key summarises as 0 suppliers, max tier 1, average 0 and no critical suppliers |

## Left out

- Training the outlier model is not modelled: the IsolationForest configuration, `_fit_model` with its seeded Gaussian samples, and `decision_function` (backend/app/services/fraud_engine.py:14-18, 22-47, 68). They are a foreign numeric library with floating-point training. The fitted model is an opaque `decision: seq<real> -> real` passed to the constructor, and only the remap at line 69 is modelled.
- `_load_network` (file and JSON I/O) is not modelled. The parsed network document is a constructor argument.
- JSON values of the wrong type (a `null` or a string where a number or list is expected) are not modelled: entry fields are typed options. A falsy non-dictionary entry is likewise not representable; only the empty dictionary is.
- `random_assessment` and the simulate route are not modelled: they draw from Python's `random` and promise nothing beyond producing a schema-valid request.
- The `round(x, 4)` and `round(x, 3)` applied to output fields are not modelled, because they depend on binary floating-point rounding. The response holds the unrounded real scores.
- Engine.FraudEngine.RuleScore: states the rule score on exact reals. IEEE-754 doubles could differ from the real sums by rounding; none of the contracts speaks about floats.
- The FastAPI app, CORS, static files, routing (backend/app/main.py, backend/app/api/routes.py) and the browser front end (frontend/assets/app.js) are transport and UI, and are not part of this model.
- Pydantic's runtime validation and type coercion are not modelled. Only the declared bounds are modelled, as the predicate `ValidRequest`.
- Concurrency is not modelled. The engine's fields are `const`, so concurrent reads cannot observe a change.
