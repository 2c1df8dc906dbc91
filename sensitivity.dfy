// The one-at-a-time sensitivity model (app/models/sensitivity.py): every risk event's
// L and S (or every FMEA item's O and D) is moved down and up by one within its scale,
// the global total is recomputed with only that record's term changed, and the
// factors are ranked by the larger of the two changes.
module Sensitivity {
  import opened Common
  import opened ModelBase
  import opened RiskTypes
  import opened Records

  const Schema: seq<ParamSpec> := [
    ParamSpec("top_n", "Top-N敏感因素", IntParam, PInt(10), "展示前N个最敏感的参数", Some(1.0), Some(50.0), []),
    ParamSpec("analysis_type", "分析类型", EnumParam, PStr("risk_matrix"), "选择分析风险矩阵还是FMEA",
              None, None, ["risk_matrix", "fmea"])]

  const Info: ModelInfo := ModelInfo("sensitivity", "敏感性分析",
    "通过参数扫描分析关键参数对风险的影响，识别最敏感因素", "不确定性分析", Schema)

  /** The largest change of the global value caused by one parameter. */
  function Impact(base: int, minus: int, plus: int): int
  {
    MaxInt(AbsInt(minus - base), AbsInt(plus - base))
  }

  function MakeFactor(name: string, base: int, minus: int, plus: int, id: int, param: string): SensitivityFactor
  {
    SensitivityFactor(name, base, minus, plus, Impact(base, minus, plus), id, param)
  }

  function ByImpact(f: SensitivityFactor): real { f.impactScore as real }

  // ---------------------------------------------------------------------------
  // Risk matrix: the global value is the total risk, the sum of L x S.

  function RiskTerm(e: RiskEvent): int { e.likelihood * e.severity }
  function TotalRisk(events: seq<RiskEvent>): int { SumBy(events, RiskTerm) }

  function LFactor(e: RiskEvent, base: int): SensitivityFactor
  {
    var own := e.likelihood * e.severity;
    MakeFactor(e.name + "_L", base,
      base - own + MaxInt(1, e.likelihood - 1) * e.severity,
      base - own + MinInt(5, e.likelihood + 1) * e.severity, e.id, "L")
  }

  function SFactor(e: RiskEvent, base: int): SensitivityFactor
  {
    var own := e.likelihood * e.severity;
    MakeFactor(e.name + "_S", base,
      base - own + e.likelihood * MaxInt(1, e.severity - 1),
      base - own + e.likelihood * MinInt(5, e.severity + 1), e.id, "S")
  }

  /** The factors in record order, L before S for each event. */
  function EventFactors(events: seq<RiskEvent>, base: int): seq<SensitivityFactor>
  {
    if events == [] then []
    else
      var e := events[|events| - 1];
      EventFactors(events[..|events| - 1], base) + [LFactor(e, base), SFactor(e, base)]
  }

  /** `run_risk_matrix`; None where slicing by `top_n` raises. */
  function RiskMatrixSensitivity(events: seq<RiskEvent>, stop: Option<SliceStop>): Option<SensitivityResult>
  {
    if events == [] then Some(SensitivityResult("risk_matrix", "Total Risk", 0, [], []))
    else if stop.None? then None
    else
      var base := TotalRisk(events);
      var fs := EventFactors(events, base);
      Some(SensitivityResult("risk_matrix", "Total Risk", base, fs, PySlice(SortDesc(fs, ByImpact), stop.value)))
  }

  // ---------------------------------------------------------------------------
  // FMEA: the global value is the total RPN, the sum of S x O x D. S is not perturbed.

  function RpnTerm(x: FmeaItem): int { x.s * x.o * x.d }
  function TotalRpn(items: seq<FmeaItem>): int { SumBy(items, RpnTerm) }

  function OFactor(x: FmeaItem, base: int): SensitivityFactor
  {
    var own := x.s * x.o * x.d;
    MakeFactor(PyPrefix(x.failureMode, 15) + "_O", base,
      base - own + x.s * MaxInt(1, x.o - 1) * x.d,
      base - own + x.s * MinInt(10, x.o + 1) * x.d, x.id, "O")
  }

  function DFactor(x: FmeaItem, base: int): SensitivityFactor
  {
    var own := x.s * x.o * x.d;
    MakeFactor(PyPrefix(x.failureMode, 15) + "_D", base,
      base - own + x.s * x.o * MaxInt(1, x.d - 1),
      base - own + x.s * x.o * MinInt(10, x.d + 1), x.id, "D")
  }

  function ItemFactors(items: seq<FmeaItem>, base: int): seq<SensitivityFactor>
  {
    if items == [] then []
    else
      var x := items[|items| - 1];
      ItemFactors(items[..|items| - 1], base) + [OFactor(x, base), DFactor(x, base)]
  }

  /** `run_fmea`; None where slicing by `top_n` raises. */
  function FmeaSensitivity(items: seq<FmeaItem>, stop: Option<SliceStop>): Option<SensitivityResult>
  {
    if items == [] then Some(SensitivityResult("fmea", "Total RPN", 0, [], []))
    else if stop.None? then None
    else
      var base := TotalRpn(items);
      var fs := ItemFactors(items, base);
      Some(SensitivityResult("fmea", "Total RPN", base, fs, PySlice(SortDesc(fs, ByImpact), stop.value)))
  }

  // ---------------------------------------------------------------------------
  // `run`: `analysis_type == "risk_matrix"` (the default) selects the risk matrix; any
  // other value, of any type, selects FMEA. A missing mission id is not rejected: the
  // record lists are then whatever the store returns for it.

  predicate SelectsRiskMatrix(params: map<string, ParamValue>)
  {
    "analysis_type" !in params || params["analysis_type"] == PStr("risk_matrix")
  }

  function Assess(params: map<string, ParamValue>, events: seq<RiskEvent>, items: seq<FmeaItem>)
    : RunResult<SensitivityResult>
  {
    var stop := SliceStopParam(params, "top_n", 10);
    var r := if SelectsRiskMatrix(params) then RiskMatrixSensitivity(events, stop) else FmeaSensitivity(items, stop);
    if r.None? then Failure(EvaluationFailed) else Success(r.value)
  }

  /** `SensitivityModel.run`. */
  method Run(params: map<string, ParamValue>, events: seq<RiskEvent>, items: seq<FmeaItem>)
    returns (r: RunResult<SensitivityResult>)
    ensures r == Assess(params, events, items)
  {
    var stop := SliceStopParam(params, "top_n", 10);
    var res: Option<SensitivityResult>;
    if SelectsRiskMatrix(params) {
      res := RunRiskMatrix(events, stop);
    } else {
      res := RunFmea(items, stop);
    }
    if res.None? {
      return Failure(EvaluationFailed);
    }
    return Success(res.value);
  }

  /** `run_risk_matrix`: the total loop, then the per-event factor loop. */
  method RunRiskMatrix(events: seq<RiskEvent>, stop: Option<SliceStop>) returns (r: Option<SensitivityResult>)
    ensures r == RiskMatrixSensitivity(events, stop)
  {
    if events == [] {
      return Some(SensitivityResult("risk_matrix", "Total Risk", 0, [], []));
    }
    var base := SumRisk(events);
    var factors := PerturbEvents(events, base);
    if stop.None? {
      return None;
    }
    return Some(SensitivityResult("risk_matrix", "Total Risk", base, factors,
                                  PySlice(SortDesc(factors, ByImpact), stop.value)));
  }

  /** The first loop of `run_risk_matrix`: the base total risk. */
  method SumRisk(events: seq<RiskEvent>) returns (base: int)
    ensures base == TotalRisk(events)
  {
    base := 0;
    var k := 0;
    while k < |events|
      invariant 0 <= k <= |events|
      invariant base == TotalRisk(events[..k])
    {
      assert events[..k + 1][..k] == events[..k];
      base := base + events[k].likelihood * events[k].severity;
      k := k + 1;
    }
    assert events[..k] == events;
  }

  /** The second loop of `run_risk_matrix`: L and S of each event moved by one. */
  method PerturbEvents(events: seq<RiskEvent>, base: int) returns (factors: seq<SensitivityFactor>)
    ensures factors == EventFactors(events, base)
  {
    factors := [];
    var k := 0;
    while k < |events|
      invariant 0 <= k <= |events|
      invariant factors == EventFactors(events[..k], base)
    {
      var e := events[k];
      assert events[..k + 1][..k] == events[..k];
      var baseR := e.likelihood * e.severity;
      var totalLMinus := base - baseR + MaxInt(1, e.likelihood - 1) * e.severity;
      var totalLPlus := base - baseR + MinInt(5, e.likelihood + 1) * e.severity;
      factors := factors + [SensitivityFactor(e.name + "_L", base, totalLMinus, totalLPlus,
        MaxInt(AbsInt(totalLMinus - base), AbsInt(totalLPlus - base)), e.id, "L")];
      var totalSMinus := base - baseR + e.likelihood * MaxInt(1, e.severity - 1);
      var totalSPlus := base - baseR + e.likelihood * MinInt(5, e.severity + 1);
      factors := factors + [SensitivityFactor(e.name + "_S", base, totalSMinus, totalSPlus,
        MaxInt(AbsInt(totalSMinus - base), AbsInt(totalSPlus - base)), e.id, "S")];
      k := k + 1;
    }
    assert events[..k] == events;
  }

  /** `run_fmea`: the total loop, then the per-item factor loop. */
  method RunFmea(items: seq<FmeaItem>, stop: Option<SliceStop>) returns (r: Option<SensitivityResult>)
    ensures r == FmeaSensitivity(items, stop)
  {
    if items == [] {
      return Some(SensitivityResult("fmea", "Total RPN", 0, [], []));
    }
    var base := SumRpn(items);
    var factors := PerturbItems(items, base);
    if stop.None? {
      return None;
    }
    return Some(SensitivityResult("fmea", "Total RPN", base, factors,
                                  PySlice(SortDesc(factors, ByImpact), stop.value)));
  }

  /** The first loop of `run_fmea`: the base total RPN. */
  method SumRpn(items: seq<FmeaItem>) returns (base: int)
    ensures base == TotalRpn(items)
  {
    base := 0;
    var k := 0;
    while k < |items|
      invariant 0 <= k <= |items|
      invariant base == TotalRpn(items[..k])
    {
      assert items[..k + 1][..k] == items[..k];
      base := base + items[k].s * items[k].o * items[k].d;
      k := k + 1;
    }
    assert items[..k] == items;
  }

  /** The second loop of `run_fmea`: O and D of each item moved by one. */
  method PerturbItems(items: seq<FmeaItem>, base: int) returns (factors: seq<SensitivityFactor>)
    ensures factors == ItemFactors(items, base)
  {
    factors := [];
    var k := 0;
    while k < |items|
      invariant 0 <= k <= |items|
      invariant factors == ItemFactors(items[..k], base)
    {
      var x := items[k];
      assert items[..k + 1][..k] == items[..k];
      var baseRpn := x.s * x.o * x.d;
      var totalOMinus := base - baseRpn + x.s * MaxInt(1, x.o - 1) * x.d;
      var totalOPlus := base - baseRpn + x.s * MinInt(10, x.o + 1) * x.d;
      factors := factors + [SensitivityFactor(PyPrefix(x.failureMode, 15) + "_O", base, totalOMinus, totalOPlus,
        MaxInt(AbsInt(totalOMinus - base), AbsInt(totalOPlus - base)), x.id, "O")];
      var totalDMinus := base - baseRpn + x.s * x.o * MaxInt(1, x.d - 1);
      var totalDPlus := base - baseRpn + x.s * x.o * MinInt(10, x.d + 1);
      factors := factors + [SensitivityFactor(PyPrefix(x.failureMode, 15) + "_D", base, totalDMinus, totalDPlus,
        MaxInt(AbsInt(totalDMinus - base), AbsInt(totalDPlus - base)), x.id, "D")];
      k := k + 1;
    }
    assert items[..k] == items;
  }

  // ---------------------------------------------------------------------------
  // What the factors mean.

  /** Two factors per event, in event order: the L factor at 2i and the S factor at 2i+1. */
  lemma {:induction false} EventFactorsLayout(events: seq<RiskEvent>, base: int)
    ensures |EventFactors(events, base)| == 2 * |events|
    ensures forall i :: 0 <= i < |events| ==>
      EventFactors(events, base)[2 * i] == LFactor(events[i], base)
      && EventFactors(events, base)[2 * i + 1] == SFactor(events[i], base)
    decreases |events|
  {
    if events != [] {
      var n := |events| - 1;
      EventFactorsLayout(events[..n], base);
      var prev := EventFactors(events[..n], base);
      var cur := EventFactors(events, base);
      forall i | 0 <= i < |events|
        ensures cur[2 * i] == LFactor(events[i], base) && cur[2 * i + 1] == SFactor(events[i], base)
      {
        if i < n {
          assert events[..n][i] == events[i];
          assert cur[2 * i] == prev[2 * i] && cur[2 * i + 1] == prev[2 * i + 1];
        }
      }
    }
  }

  /** Two factors per item, O at 2i and D at 2i+1; S is never perturbed. */
  lemma {:induction false} ItemFactorsLayout(items: seq<FmeaItem>, base: int)
    ensures |ItemFactors(items, base)| == 2 * |items|
    ensures forall i :: 0 <= i < |items| ==>
      ItemFactors(items, base)[2 * i] == OFactor(items[i], base)
      && ItemFactors(items, base)[2 * i + 1] == DFactor(items[i], base)
    ensures forall k :: 0 <= k < |ItemFactors(items, base)| ==> ItemFactors(items, base)[k].paramType in {"O", "D"}
    decreases |items|
  {
    if items != [] {
      var n := |items| - 1;
      ItemFactorsLayout(items[..n], base);
      var prev := ItemFactors(items[..n], base);
      var cur := ItemFactors(items, base);
      forall i | 0 <= i < |items|
        ensures cur[2 * i] == OFactor(items[i], base) && cur[2 * i + 1] == DFactor(items[i], base)
      {
        if i < n {
          assert items[..n][i] == items[i];
          assert cur[2 * i] == prev[2 * i] && cur[2 * i + 1] == prev[2 * i + 1];
        }
      }
    }
  }

  function WithLikelihood(e: RiskEvent, l: int): RiskEvent { e.(likelihood := l) }
  function WithSeverity(e: RiskEvent, s: int): RiskEvent { e.(severity := s) }
  function WithOccurrence(x: FmeaItem, o: int): FmeaItem { x.(o := o) }
  function WithDetection(x: FmeaItem, d: int): FmeaItem { x.(d := d) }

  /**
   * The minus and plus totals of event i's factors are the total risk of the event list
   * with only that event's L (or S) moved to `max(1, v-1)` (or `min(5, v+1)`).
   */
  lemma RiskMatrixPerturbedTotals(events: seq<RiskEvent>, i: int)
    requires 0 <= i < |events|
    ensures var e := events[i];
      var base := TotalRisk(events);
      && LFactor(e, base).minusValue == TotalRisk(events[i := WithLikelihood(e, MaxInt(1, e.likelihood - 1))])
      && LFactor(e, base).plusValue == TotalRisk(events[i := WithLikelihood(e, MinInt(5, e.likelihood + 1))])
      && SFactor(e, base).minusValue == TotalRisk(events[i := WithSeverity(e, MaxInt(1, e.severity - 1))])
      && SFactor(e, base).plusValue == TotalRisk(events[i := WithSeverity(e, MinInt(5, e.severity + 1))])
  {
    var e := events[i];
    SumByUpdate(events, i, WithLikelihood(e, MaxInt(1, e.likelihood - 1)), RiskTerm);
    SumByUpdate(events, i, WithLikelihood(e, MinInt(5, e.likelihood + 1)), RiskTerm);
    SumByUpdate(events, i, WithSeverity(e, MaxInt(1, e.severity - 1)), RiskTerm);
    SumByUpdate(events, i, WithSeverity(e, MinInt(5, e.severity + 1)), RiskTerm);
  }

  /** The same for item i's O and D, within 1..10. */
  lemma FmeaPerturbedTotals(items: seq<FmeaItem>, i: int)
    requires 0 <= i < |items|
    ensures var x := items[i];
      var base := TotalRpn(items);
      && OFactor(x, base).minusValue == TotalRpn(items[i := WithOccurrence(x, MaxInt(1, x.o - 1))])
      && OFactor(x, base).plusValue == TotalRpn(items[i := WithOccurrence(x, MinInt(10, x.o + 1))])
      && DFactor(x, base).minusValue == TotalRpn(items[i := WithDetection(x, MaxInt(1, x.d - 1))])
      && DFactor(x, base).plusValue == TotalRpn(items[i := WithDetection(x, MinInt(10, x.d + 1))])
  {
    var x := items[i];
    SumByUpdate(items, i, WithOccurrence(x, MaxInt(1, x.o - 1)), RpnTerm);
    SumByUpdate(items, i, WithOccurrence(x, MinInt(10, x.o + 1)), RpnTerm);
    SumByUpdate(items, i, WithDetection(x, MaxInt(1, x.d - 1)), RpnTerm);
    SumByUpdate(items, i, WithDetection(x, MinInt(10, x.d + 1)), RpnTerm);
  }

  /** A one-step move of a value in `lo..hi` changes a product by the other factor, at most. */
  lemma StepImpact(v: int, lo: int, hi: int, c: int, base: int)
    requires lo <= v <= hi && lo < hi
    ensures Impact(base, base - v * c + MaxInt(lo, v - 1) * c, base - v * c + MinInt(hi, v + 1) * c) == AbsInt(c)
  {
    var m := MaxInt(lo, v - 1);
    var p := MinInt(hi, v + 1);
    assert m * c - v * c == (m - v) * c;
    assert p * c - v * c == (p - v) * c;
  }

  /**
   * With L and S on the 1..5 scale, the impact of L is |S| and the impact of S is |L|,
   * whatever the other events are.
   */
  lemma RiskMatrixImpacts(e: RiskEvent, base: int)
    requires 1 <= e.likelihood <= 5 && 1 <= e.severity <= 5
    ensures LFactor(e, base).impactScore == e.severity
    ensures SFactor(e, base).impactScore == e.likelihood
  {
    LImpact(e, base);
    SImpact(e, base);
  }

  lemma LImpact(e: RiskEvent, base: int)
    requires 1 <= e.likelihood <= 5 && 1 <= e.severity
    ensures LFactor(e, base).impactScore == e.severity
  {
    var f := LFactor(e, base);
    assert f.minusValue == base - e.likelihood * e.severity + MaxInt(1, e.likelihood - 1) * e.severity;
    StepImpact(e.likelihood, 1, 5, e.severity, base);
  }

  lemma SImpact(e: RiskEvent, base: int)
    requires 1 <= e.severity <= 5 && 1 <= e.likelihood
    ensures SFactor(e, base).impactScore == e.likelihood
  {
    var l, sv := e.likelihood, e.severity;
    var m := MaxInt(1, sv - 1);
    var p := MinInt(5, sv + 1);
    var f := SFactor(e, base);
    assert l * sv == sv * l && l * m == m * l && l * p == p * l;
    assert f.minusValue == base - sv * l + m * l;
    assert f.plusValue == base - sv * l + p * l;
    StepImpact(sv, 1, 5, l, base);
  }

  /** With O and D on the 1..10 scale, the impact of O is |S x D| and the impact of D is |S x O|. */
  lemma FmeaImpacts(x: FmeaItem, base: int)
    requires 1 <= x.o <= 10 && 1 <= x.d <= 10
    ensures OFactor(x, base).impactScore == AbsInt(x.s * x.d)
    ensures DFactor(x, base).impactScore == AbsInt(x.s * x.o)
  {
    OImpact(x, base);
    DImpact(x, base);
  }

  lemma OImpact(x: FmeaItem, base: int)
    requires 1 <= x.o <= 10
    ensures OFactor(x, base).impactScore == AbsInt(x.s * x.d)
  {
    var c := x.s * x.d;
    var m := MaxInt(1, x.o - 1);
    var p := MinInt(10, x.o + 1);
    Rearrange(x.s, x.o, x.d);
    Rearrange(x.s, m, x.d);
    Rearrange(x.s, p, x.d);
    var f := OFactor(x, base);
    assert f.minusValue == base - x.o * c + m * c;
    assert f.plusValue == base - x.o * c + p * c;
    StepImpact(x.o, 1, 10, c, base);
  }

  lemma DImpact(x: FmeaItem, base: int)
    requires 1 <= x.d <= 10
    ensures DFactor(x, base).impactScore == AbsInt(x.s * x.o)
  {
    var c := x.s * x.o;
    var m := MaxInt(1, x.d - 1);
    var p := MinInt(10, x.d + 1);
    var f := DFactor(x, base);
    assert x.s * x.o * x.d == x.d * c;
    assert x.s * x.o * m == m * c;
    assert x.s * x.o * p == p * c;
    assert f.minusValue == base - x.d * c + m * c;
    assert f.plusValue == base - x.d * c + p * c;
    StepImpact(x.d, 1, 10, c, base);
  }

  lemma Rearrange(a: int, b: int, c: int)
    ensures a * b * c == b * (a * c)
  {
  }

  /**
   * A successful analysis reports the total as its base, keeps every factor in record
   * order, and takes Top-N as a prefix of the stable descending sort by impact.
   */
  lemma RiskMatrixSensitivityFacts(events: seq<RiskEvent>, stop: Option<SliceStop>)
    requires RiskMatrixSensitivity(events, stop).Some?
    ensures var r := RiskMatrixSensitivity(events, stop).value;
      && r.modelType == "risk_matrix"
      && r.baseGlobalValue == TotalRisk(events)
      && |r.factors| == 2 * |events|
      && (forall i :: 0 <= i < |events| ==>
            r.factors[2 * i] == LFactor(events[i], r.baseGlobalValue)
            && r.factors[2 * i + 1] == SFactor(events[i], r.baseGlobalValue))
      && SortedDesc(SortDesc(r.factors, ByImpact), ByImpact)
      && multiset(SortDesc(r.factors, ByImpact)) == multiset(r.factors)
      && (forall v :: KeyFilter(SortDesc(r.factors, ByImpact), ByImpact, v) == KeyFilter(r.factors, ByImpact, v))
      && r.topN == SortDesc(r.factors, ByImpact)[..|r.topN|]
      && (stop.Some? && stop.value.StopAt? && stop.value.k >= 0 ==> |r.topN| == MinInt(stop.value.k, 2 * |events|))
  {
    var r := RiskMatrixSensitivity(events, stop).value;
    EventFactorsLayout(events, TotalRisk(events));
    if events != [] {
      SortDescFacts(r.factors, ByImpact);
      forall v ensures KeyFilter(SortDesc(r.factors, ByImpact), ByImpact, v) == KeyFilter(r.factors, ByImpact, v) {
        SortDescStable(r.factors, ByImpact, v);
      }
    }
  }

  lemma FmeaSensitivityFacts(items: seq<FmeaItem>, stop: Option<SliceStop>)
    requires FmeaSensitivity(items, stop).Some?
    ensures var r := FmeaSensitivity(items, stop).value;
      && r.modelType == "fmea"
      && r.baseGlobalValue == TotalRpn(items)
      && |r.factors| == 2 * |items|
      && (forall i :: 0 <= i < |items| ==>
            r.factors[2 * i] == OFactor(items[i], r.baseGlobalValue)
            && r.factors[2 * i + 1] == DFactor(items[i], r.baseGlobalValue))
      && SortedDesc(SortDesc(r.factors, ByImpact), ByImpact)
      && multiset(SortDesc(r.factors, ByImpact)) == multiset(r.factors)
      && (forall v :: KeyFilter(SortDesc(r.factors, ByImpact), ByImpact, v) == KeyFilter(r.factors, ByImpact, v))
      && r.topN == SortDesc(r.factors, ByImpact)[..|r.topN|]
      && (stop.Some? && stop.value.StopAt? && stop.value.k >= 0 ==> |r.topN| == MinInt(stop.value.k, 2 * |items|))
  {
    var r := FmeaSensitivity(items, stop).value;
    ItemFactorsLayout(items, TotalRpn(items));
    if items != [] {
      SortDescFacts(r.factors, ByImpact);
      forall v ensures KeyFilter(SortDesc(r.factors, ByImpact), ByImpact, v) == KeyFilter(r.factors, ByImpact, v) {
        SortDescStable(r.factors, ByImpact, v);
      }
    }
  }

  /**
   * The run fails only when the chosen list is non-empty and `top_n` cannot slice, and an
   * empty chosen list gives base 0 with no factors.
   */
  lemma AssessCases(params: map<string, ParamValue>, events: seq<RiskEvent>, items: seq<FmeaItem>)
    ensures Assess(params, events, items).Failure? <==>
      SliceStopParam(params, "top_n", 10).None?
      && (if SelectsRiskMatrix(params) then events != [] else items != [])
    ensures Assess(params, events, items).Success? ==>
      Assess(params, events, items).data.modelType == (if SelectsRiskMatrix(params) then "risk_matrix" else "fmea")
    ensures (if SelectsRiskMatrix(params) then events == [] else items == []) ==>
      && Assess(params, events, items).Success?
      && Assess(params, events, items).data.baseGlobalValue == 0
      && Assess(params, events, items).data.factors == []
      && Assess(params, events, items).data.topN == []
  {
  }
}
