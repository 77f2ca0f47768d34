/** The static supplier network: a read-only, insertion-ordered mapping from
    supplier id to a node whose fields are all optional, the risk it propagates
    to a transaction, and the aggregate summary over all nodes. */
module SupplierNetwork {
  import opened Seqs
  import opened Numeric
  import opened Schemas

  datatype Option<T> = None | Some(value: T)

  /** One supplier entry as loaded from the network document. Each of the
      three fields the engine reads may be absent; `otherFields` names any
      further keys the entry carries (they only matter for truthiness). */
  datatype SupplierNode = SupplierNode(
    baseRisk: Option<real>,
    tier: Option<int>,
    upstream: Option<seq<string>>,
    otherFields: set<string>)
  {
    /** The entry is an empty dictionary, which Python treats as false. */
    predicate IsEmpty() {
      baseRisk.None? && tier.None? && upstream.None? && otherFields == {}
    }

    /** `entry.get("base_risk", default)`. */
    function BaseRiskOr(default: real): real {
      if baseRisk.Some? then baseRisk.value else default
    }

    /** `entry.get("tier", 1)`. */
    function TierOrDefault(): int {
      if tier.Some? then tier.value else DefaultTier
    }

    /** `entry.get("upstream", [])`. */
    function UpstreamOrDefault(): seq<string> {
      if upstream.Some? then upstream.value else []
    }
  }

  const DefaultBaseRisk: real := 0.3
  const DefaultTier: int := 1
  /** The risk charged to a transaction whose supplier is unknown. */
  const UnknownSupplierScore: real := 0.3
  /** The base risk above which a supplier is reported as critical. */
  const CriticalThreshold: real := 0.75

  /** The `"suppliers"` mapping: `ids` is the dictionary's iteration order. */
  datatype Suppliers = Suppliers(ids: seq<string>, nodes: map<string, SupplierNode>)
  {
    ghost predicate Valid() {
      Distinct(ids) && forall id :: id in nodes <==> id in ids
    }
  }

  const NoSuppliers: Suppliers := Suppliers([], map[])

  /** The loaded network document; its `"suppliers"` key may be missing. */
  datatype NetworkDocument = NetworkDocument(suppliers: Option<Suppliers>)
  {
    ghost predicate Valid() {
      suppliers.Some? ==> suppliers.value.Valid()
    }
  }

  /** `network.get("suppliers", {})`. */
  function SuppliersOf(doc: NetworkDocument): (s: Suppliers)
    ensures doc.Valid() ==> s.Valid()
    ensures doc.suppliers.None? ==> s.ids == [] && s.nodes == map[]
  {
    if doc.suppliers.Some? then doc.suppliers.value else NoSuppliers
  }

  // ---------------------------------------------------------------------------
  // Network score of one transaction

  /** The supplier is present and its entry is not an empty dictionary. */
  predicate HasEntry(s: Suppliers, id: string) {
    id in s.nodes && !s.nodes[id].IsEmpty()
  }

  /** `suppliers.get(node, {}).get("base_risk", 0.3)`: a missing upstream id
      contributes the default risk. */
  function UpstreamRisk(s: Suppliers, id: string): real {
    if id in s.nodes then s.nodes[id].BaseRiskOr(DefaultBaseRisk) else DefaultBaseRisk
  }

  /** The risks contributed by the listed upstream ids, one per entry. */
  function UpstreamRisks(s: Suppliers, ups: seq<string>): seq<real> {
    seq(|ups|, i requires 0 <= i < |ups| => UpstreamRisk(s, ups[i]))
  }

  /** Mean risk over the upstream list (divided by the list's full length), or
      the supplier's own risk when the list is empty. */
  function UpstreamAverage(s: Suppliers, node: SupplierNode): real {
    var ups := node.UpstreamOrDefault();
    if ups == [] then node.BaseRiskOr(DefaultBaseRisk) else Mean(UpstreamRisks(s, ups))
  }

  /** `min(tier_level / 6.0, 1.0)`. */
  function TierPressure(tierLevel: int): real {
    Min(tierLevel as real / 6.0, 1.0)
  }

  /** The pre-clip blend of intrinsic risk, upstream exposure, tier depth and
      country risk. */
  function Blend(intrinsic: real, upstreamAvg: real, tierPressure: real, countryRisk: real): real {
    intrinsic * 0.45 + upstreamAvg * 0.35 + tierPressure * 0.2 + countryRisk * 0.35
  }

  function NetworkScore(s: Suppliers, req: FraudEvaluationRequest): (r: real)
    ensures 0.0 <= r <= 1.0
    ensures !HasEntry(s, req.supplierId) ==> r == UnknownSupplierScore
  {
    if !HasEntry(s, req.supplierId) then UnknownSupplierScore
    else
      var node := s.nodes[req.supplierId];
      Clip01(Blend(node.BaseRiskOr(DefaultBaseRisk), UpstreamAverage(s, node),
                   TierPressure(req.tierLevel), req.countryRiskIndex))
  }

  /** For a valid request the tier cap never bites: tier pressure is tier/6. */
  lemma NetworkScoreForValidRequest(s: Suppliers, req: FraudEvaluationRequest)
    requires ValidRequest(req) && HasEntry(s, req.supplierId)
    ensures var node := s.nodes[req.supplierId];
      NetworkScore(s, req) == Clip01(
        0.45 * node.BaseRiskOr(0.3) + 0.35 * UpstreamAverage(s, node)
        + 0.2 * (req.tierLevel as real / 6.0) + 0.35 * req.countryRiskIndex)
  {
    assert req.tierLevel as real / 6.0 <= 1.0;
  }

  /** With no upstream list the upstream average is the supplier's own risk,
      so the intrinsic risk weighs 0.45 + 0.35 = 0.8. */
  lemma NetworkScoreWithoutUpstream(s: Suppliers, req: FraudEvaluationRequest)
    requires HasEntry(s, req.supplierId) && s.nodes[req.supplierId].UpstreamOrDefault() == []
    ensures var node := s.nodes[req.supplierId];
      UpstreamAverage(s, node) == node.BaseRiskOr(0.3) &&
      NetworkScore(s, req) == Clip01(
        0.8 * node.BaseRiskOr(0.3) + 0.2 * TierPressure(req.tierLevel) + 0.35 * req.countryRiskIndex)
  {
  }

  /** Every supplier's (defaulted) base risk lies in [0,1]. */
  ghost predicate RisksInUnit(s: Suppliers) {
    forall id :: id in s.nodes ==> 0.0 <= s.nodes[id].BaseRiskOr(DefaultBaseRisk) <= 1.0
  }

  lemma UpstreamAverageInUnit(s: Suppliers, node: SupplierNode)
    requires RisksInUnit(s) && 0.0 <= node.BaseRiskOr(DefaultBaseRisk) <= 1.0
    ensures 0.0 <= UpstreamAverage(s, node) <= 1.0
  {
    var ups := node.UpstreamOrDefault();
    if ups != [] {
      var rs := UpstreamRisks(s, ups);
      assert InUnit(rs) by {
        forall i | 0 <= i < |rs| ensures 0.0 <= rs[i] <= 1.0 {
          assert rs[i] == UpstreamRisk(s, ups[i]);
        }
      }
      MeanInUnit(rs);
    }
  }

  /** Upstream ids absent from the network are not skipped: each counts as
      risk 0.3 and as one in the divisor, so an upstream list none of whose
      ids is known averages exactly 0.3. */
  lemma UpstreamAllMissing(s: Suppliers, node: SupplierNode)
    requires node.UpstreamOrDefault() != []
    requires forall i :: 0 <= i < |node.UpstreamOrDefault()| ==> node.UpstreamOrDefault()[i] !in s.nodes
    ensures UpstreamAverage(s, node) == 0.3
  {
    var ups := node.UpstreamOrDefault();
    MeanConstant(UpstreamRisks(s, ups), DefaultBaseRisk);
  }

  /** A known upstream supplier of risk 1.0 next to an unknown one averages
      0.65, where skipping the unknown id would have given 1.0. */
  lemma UpstreamMissingCountsInDivisor()
    ensures var s := Suppliers(["SUP-A"], map["SUP-A" := SupplierNode(Some(1.0), None, None, {})]);
      UpstreamAverage(s, SupplierNode(Some(0.5), None, Some(["SUP-A", "SUP-GONE"]), {})) == 0.65
  {
    var s := Suppliers(["SUP-A"], map["SUP-A" := SupplierNode(Some(1.0), None, None, {})]);
    var rs := UpstreamRisks(s, ["SUP-A", "SUP-GONE"]);
    assert rs == [1.0, 0.3];
    assert rs[1..] == [0.3];
    assert Sum([0.3]) == 0.3 + Sum([]);
  }

  /** A supplier of base risk 0.8, tier 3 and no upstream, for a tier-3 request
      with country risk 0.5, scores 0.36 + 0.28 + 0.1 + 0.175 = 0.915. */
  lemma NetworkScoreExample(req: FraudEvaluationRequest)
    requires req.supplierId == "SUP-108" && req.tierLevel == 3 && req.countryRiskIndex == 0.5
    ensures NetworkScore(Suppliers(["SUP-108"], map["SUP-108" := SupplierNode(Some(0.8), Some(3), Some([]), {})]), req)
      == 0.915
  {
  }

  /** A document without a `"suppliers"` key scores every transaction 0.3. */
  lemma MissingSuppliersKey(doc: NetworkDocument, req: FraudEvaluationRequest)
    requires doc.suppliers.None?
    ensures NetworkScore(SuppliersOf(doc), req) == 0.3
  {
  }

  // ---------------------------------------------------------------------------
  // Network summary

  /** The aggregate view returned by the network-summary endpoint. */
  datatype Summary = Summary(
    totalSuppliers: nat,
    maxTier: int,
    averageBaseRisk: real,
    criticalSuppliers: seq<string>)

  /** Largest element of a non-empty list (Python's `max`). */
  function MaxOf(xs: seq<int>): (m: int)
    requires |xs| > 0
    ensures forall i :: 0 <= i < |xs| ==> xs[i] <= m
    ensures exists i :: 0 <= i < |xs| && xs[i] == m
  {
    if |xs| == 1 then xs[0]
    else
      var rest := MaxOf(xs[1..]);
      assert forall i :: 1 <= i < |xs| ==> xs[i] == xs[1..][i - 1];
      if xs[0] >= rest then xs[0] else rest
  }

  function Tiers(s: Suppliers): seq<int>
    requires s.Valid()
  {
    seq(|s.ids|, i requires 0 <= i < |s.ids| => s.nodes[s.ids[i]].TierOrDefault())
  }

  function BaseRisks(s: Suppliers): seq<real>
    requires s.Valid()
  {
    seq(|s.ids|, i requires 0 <= i < |s.ids| => s.nodes[s.ids[i]].BaseRiskOr(DefaultBaseRisk))
  }

  /** A supplier is critical when its base risk, read with default 0, exceeds 0.75. */
  predicate IsCritical(node: SupplierNode) {
    node.BaseRiskOr(0.0) > CriticalThreshold
  }

  function CriticalFlags(s: Suppliers): seq<bool>
    requires s.Valid()
  {
    seq(|s.ids|, i requires 0 <= i < |s.ids| => IsCritical(s.nodes[s.ids[i]]))
  }

  function Summarize(s: Suppliers): Summary
    requires s.Valid()
  {
    var tiers := Tiers(s);
    Summary(
      |s.nodes|,
      if tiers == [] then DefaultTier else MaxOf(tiers),
      Sum(BaseRisks(s)) / (MaxInt(|s.nodes|, 1) as real),
      Select(s.ids, CriticalFlags(s)))
  }

  /** The dictionary has one key per listed id, so the count is the list length. */
  lemma SupplierCount(s: Suppliers)
    requires s.Valid()
    ensures |s.nodes| == |s.ids|
  {
    DistinctCardinality(s.ids);
    assert s.nodes.Keys == set x | x in s.ids;
  }

  lemma SummaryTotal(s: Suppliers)
    requires s.Valid()
    ensures Summarize(s).totalSuppliers == |s.ids|
  {
    SupplierCount(s);
  }

  /** `max_tier` is 1 for an empty network; otherwise it bounds every node's
      (defaulted) tier and is the tier of some node. */
  lemma SummaryMaxTier(s: Suppliers)
    requires s.Valid()
    ensures s.nodes == map[] ==> Summarize(s).maxTier == 1
    ensures forall id :: id in s.nodes ==> s.nodes[id].TierOrDefault() <= Summarize(s).maxTier
    ensures s.nodes != map[] ==> exists id :: id in s.nodes && s.nodes[id].TierOrDefault() == Summarize(s).maxTier
  {
    var tiers := Tiers(s);
    var m := Summarize(s).maxTier;
    SupplierCount(s);
    if s.ids != [] {
      assert s.ids[0] in s.nodes;
      forall id | id in s.nodes ensures s.nodes[id].TierOrDefault() <= m {
        var i :| 0 <= i < |s.ids| && s.ids[i] == id;
        assert tiers[i] == s.nodes[id].TierOrDefault();
      }
      var i :| 0 <= i < |tiers| && tiers[i] == m;
      assert s.ids[i] in s.nodes && s.nodes[s.ids[i]].TierOrDefault() == m;
    }
  }

  /** The average divides by max(n, 1): an empty network averages 0, and when
      every risk lies in [0,1] so does the average. */
  lemma SummaryAverage(s: Suppliers)
    requires s.Valid()
    ensures s.nodes == map[] ==> Summarize(s).averageBaseRisk == 0.0
    ensures RisksInUnit(s) ==> 0.0 <= Summarize(s).averageBaseRisk <= 1.0
  {
    SupplierCount(s);
    var rs := BaseRisks(s);
    if RisksInUnit(s) {
      assert InUnit(rs) by {
        forall i | 0 <= i < |rs| ensures 0.0 <= rs[i] <= 1.0 {
          assert s.ids[i] in s.nodes;
        }
      }
      AverageInUnit(rs, MaxInt(|s.nodes|, 1) as real);
    }
  }

  /** `critical_suppliers` lists, in network order and without repetition,
      exactly the ids whose base risk (default 0) exceeds 0.75. */
  lemma SummaryCritical(s: Suppliers)
    requires s.Valid()
    ensures IsSubsequence(Summarize(s).criticalSuppliers, s.ids)
    ensures Distinct(Summarize(s).criticalSuppliers)
    ensures forall id :: id in Summarize(s).criticalSuppliers <==> id in s.nodes && IsCritical(s.nodes[id])
  {
    var flags := CriticalFlags(s);
    var crit := Summarize(s).criticalSuppliers;
    SelectIsSubsequence(s.ids, flags);
    SelectDistinct(s.ids, flags);
    forall id ensures id in crit <==> id in s.nodes && IsCritical(s.nodes[id]) {
      SelectContains(s.ids, flags, id);
      if id in s.nodes {
        var i :| 0 <= i < |s.ids| && s.ids[i] == id;
        assert flags[i] == IsCritical(s.nodes[id]);
      }
    }
  }

  /** A document without a `"suppliers"` key summarises as no suppliers,
      tier 1, average 0 and nothing critical. */
  lemma MissingSuppliersSummary(doc: NetworkDocument)
    requires doc.suppliers.None?
    ensures Summarize(SuppliersOf(doc)) == Summary(0, 1, 0.0, [])
  {
  }
}
