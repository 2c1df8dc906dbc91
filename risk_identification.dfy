// The risk-identification pipeline (app/pipeline/risk_identification.py): indicators
// grouped by distribution type, fusion rules that combine several indicator values of a
// mission into one, and the assembly of the mission's "best risk data set".
//
// The store is replaced by the lists it would return (all indicators, all indicator
// values and all fusion rules, in id order); exp, sqrt and log are parameters
// (Common.Transcendentals). Writing the data set back and its time stamps are not modelled.
module RiskIdentification {
  import opened Common
  import opened Records

  /** `DISTRIBUTION_TYPES`, in order. */
  const DistributionTypes: seq<string> := ["normal", "lognormal", "uniform", "triangular", "discrete", "categorical"]

  /** `_parse_dist_params`: empty or unparsable text gives `{}`. */
  function ParseDistParams(t: JsonText): (r: Json)
    ensures !t.ParsedText? ==> r == JObj([])
    ensures t.ParsedText? ==> r == t.value
  {
    match t
    case ParsedText(v) => v
    case _ => JObj([])
  }

  // ---------------------------------------------------------------------------
  // get_indicators_by_distribution / get_distribution_stats

  /** The bucket of a `distribution_type`: its position in the list, "normal" for an empty or unknown type. */
  function BucketIndex(dtype: string): (b: nat)
    ensures b < |DistributionTypes|
    ensures dtype in DistributionTypes ==> DistributionTypes[b] == dtype
    ensures dtype !in DistributionTypes ==> b == 0
  {
    if dtype == "lognormal" then 1
    else if dtype == "uniform" then 2
    else if dtype == "triangular" then 3
    else if dtype == "discrete" then 4
    else if dtype == "categorical" then 5
    else 0
  }

  datatype IndicatorInfo = IndicatorInfo(id: int, name: string, unit: string, categoryId: Option<int>,
                                         distributionType: string, distParams: Json, weight: real)

  function InfoOf(ind: Indicator): IndicatorInfo
  {
    IndicatorInfo(ind.id, ind.name, ind.unit, ind.categoryId, DistributionTypes[BucketIndex(ind.distributionType)],
                  ParseDistParams(ind.distParams), ind.weight)
  }

  /** The indicators put into bucket `j`, in id order. */
  function Bucket(inds: seq<Indicator>, j: nat): seq<IndicatorInfo>
  {
    if inds == [] then []
    else
      var last := inds[|inds| - 1];
      Bucket(inds[..|inds| - 1], j) + if BucketIndex(last.distributionType) == j then [InfoOf(last)] else []
  }

  function Classified(inds: seq<Indicator>): seq<(string, seq<IndicatorInfo>)>
  {
    seq(|DistributionTypes|, j requires 0 <= j < |DistributionTypes| => (DistributionTypes[j], Bucket(inds, j)))
  }

  /** `get_indicators_by_distribution(dist_type)`: all six buckets, or only the one named. */
  function ByDistribution(inds: seq<Indicator>, distType: Option<string>): seq<(string, seq<IndicatorInfo>)>
  {
    if distType.None? || distType.value == "" then Classified(inds)
    else if distType.value in DistributionTypes then [(distType.value, Bucket(inds, BucketIndex(distType.value)))]
    else [(distType.value, [])]
  }

  method GetIndicatorsByDistribution(indicators: seq<Indicator>, distType: Option<string>)
    returns (result: seq<(string, seq<IndicatorInfo>)>)
    ensures result == ByDistribution(indicators, distType)
  {
    var buckets: seq<seq<IndicatorInfo>> := [[], [], [], [], [], []];
    var k := 0;
    while k < |indicators|
      invariant 0 <= k <= |indicators|
      invariant |buckets| == |DistributionTypes|
      invariant forall j :: 0 <= j < |buckets| ==> buckets[j] == Bucket(indicators[..k], j)
    {
      var ind := indicators[k];
      var b := BucketIndex(ind.distributionType);
      assert indicators[..k + 1][..k] == indicators[..k];
      buckets := buckets[b := buckets[b] + [InfoOf(ind)]];
      k := k + 1;
    }
    assert indicators[..k] == indicators;
    if distType.None? || distType.value == "" {
      result := seq(|DistributionTypes|, j requires 0 <= j < |DistributionTypes| => (DistributionTypes[j], buckets[j]));
    } else if distType.value in DistributionTypes {
      result := [(distType.value, buckets[BucketIndex(distType.value)])];
    } else {
      result := [(distType.value, [])];
    }
  }

  /** Every entry of bucket `j` has that bucket's type and comes from one of the indicators. */
  lemma {:induction false} BucketMembers(inds: seq<Indicator>, j: nat)
    requires j < |DistributionTypes|
    ensures forall e :: e in Bucket(inds, j) ==>
      e.distributionType == DistributionTypes[j] && exists k :: 0 <= k < |inds| && e == InfoOf(inds[k])
    decreases |inds|
  {
    if inds != [] {
      var n := |inds| - 1;
      BucketMembers(inds[..n], j);
      forall e | e in Bucket(inds, j)
        ensures e.distributionType == DistributionTypes[j] && exists k :: 0 <= k < |inds| && e == InfoOf(inds[k])
      {
        if e in Bucket(inds[..n], j) {
          var k :| 0 <= k < n && e == InfoOf(inds[..n][k]);
          assert inds[..n][k] == inds[k];
        } else {
          assert e == InfoOf(inds[n]);
        }
      }
    }
  }

  /** Every indicator is in the bucket of its (defaulted) type. */
  lemma {:induction false} BucketHoldsEach(inds: seq<Indicator>, k: nat)
    requires k < |inds|
    ensures InfoOf(inds[k]) in Bucket(inds, BucketIndex(inds[k].distributionType))
    decreases |inds|
  {
    var n := |inds| - 1;
    if k < n {
      BucketHoldsEach(inds[..n], k);
      assert inds[..n][k] == inds[k];
    }
  }

  /** Σ of the sizes of buckets 0..m-1. */
  function BucketTotal(inds: seq<Indicator>, m: nat): nat
  {
    if m == 0 then 0 else BucketTotal(inds, m - 1) + |Bucket(inds, m - 1)|
  }

  /** Appending `x`, whose bucket is `b`, adds one to the buckets below `m` only when `b < m`. */
  lemma {:induction false} BucketTotalStep(p: seq<Indicator>, x: Indicator, b: nat, m: nat)
    requires b == BucketIndex(x.distributionType)
    ensures BucketTotal(p + [x], m) == BucketTotal(p, m) + if b < m then 1 else 0
  {
    if m > 0 {
      BucketTotalStep(p, x, b, m - 1);
      BucketStep(p, x, b, m - 1);
    }
  }

  lemma BucketStep(p: seq<Indicator>, x: Indicator, b: nat, j: nat)
    requires b == BucketIndex(x.distributionType)
    ensures |Bucket(p + [x], j)| == |Bucket(p, j)| + if b == j then 1 else 0
  {
    assert (p + [x])[..|p|] == p;
  }

  /** The buckets together hold every indicator exactly once. */
  lemma {:induction false} BucketsCover(inds: seq<Indicator>)
    ensures BucketTotal(inds, |DistributionTypes|) == |inds|
    decreases |inds|
  {
    if inds != [] {
      var n := |inds| - 1;
      BucketsCover(inds[..n]);
      assert inds == inds[..n] + [inds[n]];
      BucketTotalStep(inds[..n], inds[n], BucketIndex(inds[n].distributionType), |DistributionTypes|);
    } else {
      BucketTotalEmpty(|DistributionTypes|);
    }
  }

  lemma {:induction false} BucketTotalEmpty(m: nat)
    ensures BucketTotal([], m) == 0
  {
    if m > 0 {
      BucketTotalEmpty(m - 1);
    }
  }

  /** `get_distribution_stats`: the size of each bucket. */
  function DistributionStats(inds: seq<Indicator>): seq<(string, int)>
  {
    seq(|DistributionTypes|, j requires 0 <= j < |DistributionTypes| => (DistributionTypes[j], |Bucket(inds, j)|))
  }

  method GetDistributionStats(indicators: seq<Indicator>) returns (stats: seq<(string, int)>)
    ensures stats == DistributionStats(indicators)
  {
    var classified := GetIndicatorsByDistribution(indicators, None);
    stats := seq(|classified|, j requires 0 <= j < |classified| => (classified[j].0, |classified[j].1|));
  }

  function CountOf(e: (string, int)): int { e.1 }

  lemma {:induction false} StatsPrefix(inds: seq<Indicator>, m: nat)
    requires m <= |DistributionTypes|
    ensures SumBy(DistributionStats(inds)[..m], CountOf) == BucketTotal(inds, m)
  {
    if m > 0 {
      StatsPrefix(inds, m - 1);
      assert DistributionStats(inds)[..m][..m - 1] == DistributionStats(inds)[..m - 1];
    }
  }

  /** The counts of `get_distribution_stats` add up to the number of indicators. */
  lemma StatsSumToCount(inds: seq<Indicator>)
    ensures SumBy(DistributionStats(inds), CountOf) == |inds|
  {
    StatsPrefix(inds, |DistributionTypes|);
    assert DistributionStats(inds)[..|DistributionTypes|] == DistributionStats(inds);
    BucketsCover(inds);
  }

  // ---------------------------------------------------------------------------
  // apply_fusion_rule

  /** One input of a fused value: an indicator with its numeric value. */
  datatype FusedInput = FusedInput(id: int, name: string, value: real)

  /**
   * The dict `apply_fusion_rule` returns. `NoValidInputs` is the one with the "error" key,
   * whose value is 0 and whose inputs are empty.
   */
  datatype FusionOutcome =
    | Fused(name: string, value: real, unit: string, how: string, inputs: seq<FusedInput>)
    | NoValidInputs(name: string, how: string)

  /** `json.loads(rule.input_indicator_ids)`, [] when it raises; None where `for ind_id in ...` raises. */
  function InputIds(t: JsonText): Option<seq<Json>>
  {
    if t.ParsedText? then Elements(t.value) else Some([])
  }

  /** `indicator_dao.get_by_id`. */
  function FindIndicator(inds: seq<Indicator>, id: int): (r: Option<Indicator>)
    ensures r.Some? ==> r.value in inds && r.value.id == id
    ensures r.None? ==> forall k :: 0 <= k < |inds| ==> inds[k].id != id
  {
    if inds == [] then None
    else if inds[0].id == id then Some(inds[0])
    else FindIndicator(inds[1..], id)
  }

  /** `value_dao.get_by_mission_and_indicator`: the first stored value of the pair. */
  function FirstValue(values: seq<IndicatorValue>, missionId: int, id: int): (r: Option<IndicatorValue>)
    ensures r.Some? ==> r.value in values && r.value.missionId == missionId && r.value.indicatorId == id
    ensures r.None? ==> forall k :: 0 <= k < |values| ==> values[k].missionId != missionId || values[k].indicatorId != id
  {
    if values == [] then None
    else if values[0].missionId == missionId && values[0].indicatorId == id then Some(values[0])
    else FirstValue(values[1..], missionId, id)
  }

  /** What the loop keeps of one input id: a known indicator whose value for the mission is a number. */
  function InputOf(id: Json, inds: seq<Indicator>, values: seq<IndicatorValue>, missionId: int): Option<FusedInput>
  {
    if !id.JInt? then None
    else
      var ind := FindIndicator(inds, id.i);
      var v := FirstValue(values, missionId, id.i);
      if ind.None? || v.None? || !v.value.value.Numeric? then None
      else Some(FusedInput(id.i, ind.value.name, v.value.value.x))
  }

  function FusionInputs(ids: seq<Json>, inds: seq<Indicator>, values: seq<IndicatorValue>, missionId: int)
    : seq<FusedInput>
  {
    if ids == [] then []
    else
      var e := InputOf(ids[|ids| - 1], inds, values, missionId);
      FusionInputs(ids[..|ids| - 1], inds, values, missionId) + if e.Some? then [e.value] else []
  }

  function ValuesOf(ins: seq<FusedInput>): seq<real>
  {
    seq(|ins|, k requires 0 <= k < |ins| => ins[k].value)
  }

  function Mean(vs: seq<real>): real
    requires vs != []
  {
    SumReals(vs) / |vs| as real
  }

  /** `max(values)`. */
  function MaxOf(vs: seq<real>): (m: real)
    requires vs != []
    ensures m in vs && forall k :: 0 <= k < |vs| ==> vs[k] <= m
  {
    if |vs| == 1 then vs[0] else MaxReal(MaxOf(vs[..|vs| - 1]), vs[|vs| - 1])
  }

  /** `min(values)`. */
  function MinOf(vs: seq<real>): (m: real)
    requires vs != []
    ensures m in vs && forall k :: 0 <= k < |vs| ==> m <= vs[k]
  {
    if |vs| == 1 then vs[0] else MinReal(MinOf(vs[..|vs| - 1]), vs[|vs| - 1])
  }

  /** `sum(w * v for w, v in zip(weights, values))` for lists of one length. */
  function Dot(ws: seq<real>, vs: seq<real>): real
    requires |ws| == |vs|
  {
    if vs == [] then 0.0 else Dot(ws[..|ws| - 1], vs[..|vs| - 1]) + ws[|ws| - 1] * vs[|vs| - 1]
  }

  /**
   * The `weighted_sum` branch. A weight list of another length is replaced by the uniform
   * one; text that does not parse, a value without a length, or a weight that is not a
   * number raises inside the `try`, whose handler takes the mean.
   */
  function WeightedSum(weights: JsonText, vs: seq<real>): real
    requires vs != []
  {
    var ws := if weights.ParsedText? then Elements(weights.value) else None;
    if ws.None? then Mean(vs)
    else if |ws.value| != |vs| then Dot(Uniform(|vs|), vs)
    else
      var nums := Numbers(ws.value);
      if nums.None? then Mean(vs) else Dot(nums.value, vs)
  }

  /** The fused value by `rule.method`; an unknown method takes the mean. */
  function FuseValues(how: string, weights: JsonText, vs: seq<real>): real
    requires vs != []
  {
    if how == "mean" then Mean(vs)
    else if how == "weighted_sum" then WeightedSum(weights, vs)
    else if how == "max" then MaxOf(vs)
    else if how == "min" then MinOf(vs)
    else Mean(vs)
  }

  /** `apply_fusion_rule(rule, mission_id)`; None where it raises. */
  function Fusion(rule: FusionRule, inds: seq<Indicator>, values: seq<IndicatorValue>, missionId: int)
    : Option<FusionOutcome>
  {
    var ids := InputIds(rule.inputIndicatorIds);
    if ids.None? then None
    else
      var ins := FusionInputs(ids.value, inds, values, missionId);
      if ins == [] then Some(NoValidInputs(rule.outputIndicatorName, rule.fusionMethod))
      else Some(Fused(rule.outputIndicatorName, FuseValues(rule.fusionMethod, rule.weights, ValuesOf(ins)),
                      rule.outputUnit, rule.fusionMethod, ins))
  }

  method ApplyFusionRule(rule: FusionRule, inds: seq<Indicator>, values: seq<IndicatorValue>, missionId: int)
    returns (r: Option<FusionOutcome>)
    ensures r == Fusion(rule, inds, values, missionId)
  {
    var ids := InputIds(rule.inputIndicatorIds);
    if ids.None? {
      return None;
    }
    var inputValues: seq<real> := [];
    var inputInfo: seq<FusedInput> := [];
    var k := 0;
    while k < |ids.value|
      invariant 0 <= k <= |ids.value|
      invariant inputInfo == FusionInputs(ids.value[..k], inds, values, missionId)
      invariant inputValues == ValuesOf(inputInfo)
    {
      var id := ids.value[k];
      assert ids.value[..k + 1][..k] == ids.value[..k];
      if id.JInt? {
        var indicator := FindIndicator(inds, id.i);
        var valueObj := FirstValue(values, missionId, id.i);
        if indicator.Some? && valueObj.Some? && valueObj.value.value.Numeric? {
          var v := valueObj.value.value.x;
          inputValues := inputValues + [v];
          inputInfo := inputInfo + [FusedInput(id.i, indicator.value.name, v)];
        }
      }
      k := k + 1;
    }
    assert ids.value[..k] == ids.value;
    if inputValues == [] {
      return Some(NoValidInputs(rule.outputIndicatorName, rule.fusionMethod));
    }
    var fused := FuseValues(rule.fusionMethod, rule.weights, inputValues);
    r := Some(Fused(rule.outputIndicatorName, fused, rule.outputUnit, rule.fusionMethod, inputInfo));
  }

  /** Every input of a fused value is a known indicator whose first value for the mission is that number. */
  lemma {:induction false} FusionInputsFacts(ids: seq<Json>, inds: seq<Indicator>, values: seq<IndicatorValue>,
                                             missionId: int)
    ensures var ins := FusionInputs(ids, inds, values, missionId);
      |ins| <= |ids| &&
      forall e :: e in ins ==>
        && JInt(e.id) in ids
        && (exists k :: 0 <= k < |inds| && inds[k].id == e.id && inds[k].name == e.name)
        && FirstValue(values, missionId, e.id).Some?
        && FirstValue(values, missionId, e.id).value.value == Numeric(e.value)
    decreases |ids|
  {
    if ids != [] {
      var n := |ids| - 1;
      FusionInputsFacts(ids[..n], inds, values, missionId);
      assert forall j :: j in ids[..n] ==> j in ids;
    }
  }

  /** mean, max and min, and an unknown method, fuse to the mean, the maximum and the minimum. */
  lemma FuseValuesMeaning(how: string, weights: JsonText, vs: seq<real>)
    requires vs != []
    ensures how == "mean" ==> FuseValues(how, weights, vs) == SumReals(vs) / |vs| as real
    ensures how == "max" ==>
      (FuseValues(how, weights, vs) in vs && forall k :: 0 <= k < |vs| ==> vs[k] <= FuseValues(how, weights, vs))
    ensures how == "min" ==>
      (FuseValues(how, weights, vs) in vs && forall k :: 0 <= k < |vs| ==> FuseValues(how, weights, vs) <= vs[k])
    ensures how !in ["mean", "weighted_sum", "max", "min"] ==> FuseValues(how, weights, vs) == Mean(vs)
  {
  }

  /** `Σ c · v` is `c · Σ v`. */
  lemma {:induction false} DotConstant(c: real, vs: seq<real>)
    ensures Dot(seq(|vs|, _ => c), vs) == c * SumReals(vs)
    decreases |vs|
  {
    if vs != [] {
      var n := |vs| - 1;
      DotConstant(c, vs[..n]);
      assert seq(|vs|, _ => c)[..n] == seq(n, _ => c);
      MulAddReal(c, SumReals(vs[..n]), vs[n]);
    }
  }

  /** The uniform weights give the mean. */
  lemma UniformIsMean(vs: seq<real>)
    requires vs != []
    ensures Dot(Uniform(|vs|), vs) == Mean(vs)
  {
    DotConstant(1.0 / |vs| as real, vs);
    DivAsProduct(SumReals(vs), |vs| as real);
  }

  lemma DivAsProduct(a: real, n: real)
    requires n != 0.0
    ensures (1.0 / n) * a == a / n
  {
  }

  /**
   * `weighted_sum` takes the mean when the weights do not parse, have no length or are not
   * numbers, and when their count differs from the count of usable inputs.
   */
  lemma WeightedSumFallsBackToMean(weights: JsonText, vs: seq<real>)
    requires vs != []
    requires var ws := if weights.ParsedText? then Elements(weights.value) else None;
      ws.None? || |ws.value| != |vs| || Numbers(ws.value).None?
    ensures WeightedSum(weights, vs) == Mean(vs)
  {
    var ws := if weights.ParsedText? then Elements(weights.value) else None;
    if ws.Some? && |ws.value| != |vs| {
      UniformIsMean(vs);
    }
  }

  /**
   * One usable input is its own fused value under every method except `weighted_sum`
   * with a single numeric weight `w`, which gives `w · v`.
   */
  lemma SingleInputUnchanged(how: string, weights: JsonText, v: real)
    ensures var ws := if weights.ParsedText? then Elements(weights.value) else None;
      var scaled := how == "weighted_sum" && ws.Some? && |ws.value| == 1 && Numbers(ws.value).Some?;
      && (!scaled ==> FuseValues(how, weights, [v]) == v)
      && (scaled ==> FuseValues(how, weights, [v]) == Numbers(ws.value).value[0] * v)
  {
    assert [v][..0] == [];
    assert SumReals([v]) == v;
    assert Mean([v]) == v;
    var ws := if weights.ParsedText? then Elements(weights.value) else None;
    if ws.Some? && |ws.value| != 1 {
      UniformIsMean([v]);
    }
    if ws.Some? && |ws.value| == 1 && Numbers(ws.value).Some? {
      var w := Numbers(ws.value).value;
      assert w[..0] == [];
      assert Dot(w, [v]) == w[0] * v;
    }
  }


  // ---------------------------------------------------------------------------
  // _get_mu_sigma

  /** `max(1e-6, abs(x) * 0.1)`. */
  function DefaultSigma(x: real): real
  {
    MaxReal(0.000001, AbsReal(x) * 0.1)
  }

  /** `params.get(k, default)` as a number; None where the arithmetic on it raises. */
  function NumberOr(f: seq<(string, Json)>, k: string, default: real): Option<real>
  {
    JsonNumber(LookupOr(f, k, JReal(default)))
  }

  /** Mean and deviation of a lognormal from the parameters of the underlying normal. */
  function LognormalMoments(tr: Transcendentals, f: seq<(string, Json)>, x: real): Option<(real, real)>
  {
    var m := NumberOr(f, "mu", tr.log(MaxReal(0.000001, x)));
    var s := NumberOr(f, "sigma", 0.5);
    if m.None? || s.None? then None
    else
      var mean := tr.exp(m.value + s.value * s.value / 2.0);
      Some((mean, mean * tr.sqrt(tr.exp(s.value * s.value) - 1.0)))
  }

  /** `U(low, high)`: mean `(l + h) / 2`, deviation `(h - l) / sqrt(12)`. */
  function UniformMoments(tr: Transcendentals, f: seq<(string, Json)>, x: real): Option<(real, real)>
  {
    var low := NumberOr(f, "low", x - 1.0);
    var high := NumberOr(f, "high", x + 1.0);
    var r12 := tr.sqrt(12.0);
    if low.None? || high.None? || r12 == 0.0 then None
    else Some(((low.value + high.value) / 2.0, (high.value - low.value) / r12))
  }

  /** The variance of `Tri(l, m, h)`. */
  function TriangularVariance(l: real, m: real, h: real): real
  {
    (l * l + m * m + h * h - l * m - l * h - m * h) / 18.0
  }

  function TriangularMoments(tr: Transcendentals, f: seq<(string, Json)>, x: real): Option<(real, real)>
  {
    var low := NumberOr(f, "low", x - 1.0);
    var mode := NumberOr(f, "mode", x);
    var high := NumberOr(f, "high", x + 1.0);
    if low.None? || mode.None? || high.None? then None
    else
      var l, m, h := low.value, mode.value, high.value;
      Some(((l + m + h) / 3.0, tr.sqrt(MaxReal(0.0, TriangularVariance(l, m, h)))))
  }

  /** Σ p·(v − μ)², the variance of a discrete distribution around μ. */
  function Spread(ps: seq<real>, vs: seq<real>, mu: real): real
    requires |ps| == |vs|
  {
    if vs == [] then 0.0
    else Spread(ps[..|ps| - 1], vs[..|vs| - 1], mu) + ps[|ps| - 1] * (vs[|vs| - 1] - mu) * (vs[|vs| - 1] - mu)
  }

  /** The probabilities the discrete branch uses: the given ones, or uniform ones when the lengths differ. */
  function DiscreteProbs(probs: seq<Json>, n: nat): Option<seq<real>>
  {
    if |probs| != n then (if n == 0 then None else Some(Uniform(n)))
    else Numbers(probs)
  }

  /**
   * `{values, probs}`. Only the lengths are compared: probabilities that do not sum to 1
   * are used as they are. Uniform probabilities for no values divide by zero.
   */
  function DiscreteMoments(tr: Transcendentals, f: seq<(string, Json)>, x: real): Option<(real, real)>
  {
    var values := Elements(LookupOr(f, "values", JArr([JReal(x)])));
    var probs := Elements(LookupOr(f, "probs", JArr([JReal(1.0)])));
    if values.None? || probs.None? then None
    else
      var vs := Numbers(values.value);
      var ps := DiscreteProbs(probs.value, |values.value|);
      if vs.None? || ps.None? then None
      else
        var mu := Dot(ps.value, vs.value);
        Some((mu, tr.sqrt(MaxReal(0.0, Spread(ps.value, vs.value, mu)))))
  }

  /** The families whose branch reads `params`. */
  const ParametricTypes: seq<string> := ["normal", "lognormal", "uniform", "triangular", "discrete"]

  /**
   * `_get_mu_sigma(dist_type, params, x)`; None where it raises. Its `normal` branch copies
   * the stored values without arithmetic, so they stay JSON values of any kind.
   */
  function MuSigma(tr: Transcendentals, dtype: string, params: Json, x: real): Option<(Json, Json)>
  {
    if dtype !in ParametricTypes then Some((JReal(x), JReal(DefaultSigma(x))))
    else if !params.JObj? then None
    else
      var f := params.fields;
      if dtype == "normal" then Some((LookupOr(f, "mu", JReal(x)), LookupOr(f, "sigma", JReal(DefaultSigma(x)))))
      else
        var m := if dtype == "lognormal" then LognormalMoments(tr, f, x)
                 else if dtype == "uniform" then UniformMoments(tr, f, x)
                 else if dtype == "triangular" then TriangularMoments(tr, f, x)
                 else DiscreteMoments(tr, f, x);
        if m.None? then None else Some((JReal(m.value.0), JReal(m.value.1)))
  }

  /** Categorical and unknown types, and an empty type, take `(x, max(1e-6, |x| * 0.1))`. */
  lemma UnknownTypeMoments(tr: Transcendentals, dtype: string, params: Json, x: real)
    requires dtype !in ParametricTypes
    ensures MuSigma(tr, dtype, params, x) == Some((JReal(x), JReal(MaxReal(0.000001, AbsReal(x) * 0.1))))
  {
  }

  /** A `normal` indicator without `mu` and `sigma` takes the value and the default deviation. */
  lemma NormalDefaults(tr: Transcendentals, x: real)
    ensures MuSigma(tr, "normal", JObj([]), x) == Some((JReal(x), JReal(DefaultSigma(x))))
  {
  }

  /** The uniform family: μ = (l + h) / 2 and σ² = (h − l)² / 12. */
  lemma UniformSquare(tr: Transcendentals, f: seq<(string, Json)>, x: real, l: real, h: real)
    requires Sound(tr)
    requires NumberOr(f, "low", x - 1.0) == Some(l) && NumberOr(f, "high", x + 1.0) == Some(h)
    ensures var m := UniformMoments(tr, f, x);
      m.Some? && m.value.0 == (l + h) / 2.0 && m.value.1 * m.value.1 == (h - l) * (h - l) / 12.0
  {
    var r := tr.sqrt(12.0);
    assert r * r == 12.0;
    QuotientSquare(h - l, r);
  }

  lemma QuotientSquare(a: real, r: real)
    requires r * r == 12.0
    ensures r != 0.0 && (a / r) * (a / r) == a * a / 12.0
  {
    assert (a / r) * (a / r) == (a * a) / (r * r);
  }

  /** The triangular family: μ = (l + m + h) / 3 and σ = √max(0, var), so σ ≥ 0 and σ² = max(0, var). */
  lemma TriangularSquare(tr: Transcendentals, f: seq<(string, Json)>, x: real, l: real, m: real, h: real)
    requires Sound(tr)
    requires NumberOr(f, "low", x - 1.0) == Some(l) && NumberOr(f, "mode", x) == Some(m)
    requires NumberOr(f, "high", x + 1.0) == Some(h)
    ensures var r := TriangularMoments(tr, f, x);
      && r.Some? && r.value.0 == (l + m + h) / 3.0 && r.value.1 >= 0.0
      && r.value.1 * r.value.1 == MaxReal(0.0, TriangularVariance(l, m, h))
  {
  }

  /** The discrete family: μ = Σ v·p when the lengths agree, the mean of the values when they do not. */
  lemma DiscreteMean(tr: Transcendentals, f: seq<(string, Json)>, x: real, vs: seq<real>, probs: seq<Json>)
    requires Sound(tr)
    requires Elements(LookupOr(f, "values", JArr([JReal(x)]))).Some?
    requires Numbers(Elements(LookupOr(f, "values", JArr([JReal(x)]))).value) == Some(vs)
    requires Elements(LookupOr(f, "probs", JArr([JReal(1.0)]))) == Some(probs)
    ensures |probs| == |vs| && Numbers(probs).Some? ==>
      DiscreteMoments(tr, f, x).Some? && DiscreteMoments(tr, f, x).value.0 == Dot(Numbers(probs).value, vs)
    ensures |probs| != |vs| && vs != [] ==>
      DiscreteMoments(tr, f, x).Some? && DiscreteMoments(tr, f, x).value.0 == Mean(vs)
    ensures |probs| != |vs| && vs == [] ==> DiscreteMoments(tr, f, x).None?
    ensures DiscreteMoments(tr, f, x).Some? ==> DiscreteMoments(tr, f, x).value.1 >= 0.0
  {
    if |probs| != |vs| && vs != [] {
      UniformIsMean(vs);
    }
  }

  /** Probabilities are not normalised: the value 2 with probability 0.5 gives μ = 1. */
  lemma DiscreteKeepsProbabilities(tr: Transcendentals)
    ensures var f := [("values", JArr([JInt(2)])), ("probs", JArr([JReal(0.5)]))];
      DiscreteMoments(tr, f, 0.0).Some? && DiscreteMoments(tr, f, 0.0).value.0 == 1.0
  {
    var f := [("values", JArr([JInt(2)])), ("probs", JArr([JReal(0.5)]))];
    assert LookupOr(f, "values", JArr([JReal(0.0)])) == JArr([JInt(2)]);
    assert LookupOr(f, "probs", JArr([JReal(1.0)])) == JArr([JReal(0.5)]);
    NumbersAppend([], JInt(2));
    NumbersAppend([], JReal(0.5));
    assert [] + [JInt(2)] == [JInt(2)] && [] + [JReal(0.5)] == [JReal(0.5)];
    assert [0.5][..0] == [] && [2.0][..0] == [];
    assert Dot([0.5], [2.0]) == 1.0;
  }

  // ---------------------------------------------------------------------------
  // generate_risk_dataset

  /** `float(val_obj.value)`, 0 where it raises. */
  function NumberOr0(v: ValueText): real
  {
    if v.Numeric? then v.x else 0.0
  }

  /** `{v.indicator_id: v for v in values}`: the last record of each indicator. */
  function RecordMap(values: seq<IndicatorValue>): map<int, IndicatorValue>
  {
    if values == [] then map[]
    else RecordMap(values[..|values| - 1])[values[|values| - 1].indicatorId := values[|values| - 1]]
  }

  /** The map holds each indicator's last record, and only indicators that have records. */
  lemma {:induction false} RecordMapLast(values: seq<IndicatorValue>, j: int)
    requires 0 <= j < |values|
    requires forall k :: j < k < |values| ==> values[k].indicatorId != values[j].indicatorId
    ensures values[j].indicatorId in RecordMap(values) && RecordMap(values)[values[j].indicatorId] == values[j]
    decreases |values|
  {
    var n := |values| - 1;
    if j < n {
      assert forall k :: j < k < n ==> values[..n][k] == values[k];
      RecordMapLast(values[..n], j);
    }
  }

  lemma {:induction false} RecordMapHolds(values: seq<IndicatorValue>)
    ensures forall id :: id in RecordMap(values) ==> RecordMap(values)[id] in values && RecordMap(values)[id].indicatorId == id
    decreases |values|
  {
    if values != [] {
      var n := |values| - 1;
      RecordMapHolds(values[..n]);
    }
  }

  /** `sum(ind.weight for ind in indicators if ind.id in value_map)`. */
  function MappedWeight(inds: seq<Indicator>, rm: map<int, IndicatorValue>): real
  {
    if inds == [] then 0.0
    else MappedWeight(inds[..|inds| - 1], rm) + if inds[|inds| - 1].id in rm then inds[|inds| - 1].weight else 0.0
  }

  /** One entry of `indicator_list`. */
  datatype DatasetEntry = DatasetEntry(
    indicatorId: int,
    name: string,
    value: real,
    unit: string,
    source: string,
    distributionType: string,
    distParams: Json,
    mu: Json,
    sigma: Json,
    weight: real)

  function EntryWeight(e: DatasetEntry): real { e.weight }

  /** The entry of an indicator with a record; None where `_get_mu_sigma` raises. */
  function EntryOf(tr: Transcendentals, ind: Indicator, rec: IndicatorValue, total: real): Option<DatasetEntry>
  {
    var x := NumberOr0(rec.value);
    var params := ParseDistParams(ind.distParams);
    var ms := MuSigma(tr, ind.distributionType, params, x);
    if ms.None? then None
    else
      Some(DatasetEntry(ind.id, ind.name, x, ind.unit, rec.source, ind.distributionType, params, ms.value.0,
                        ms.value.1, if total > 0.0 then ind.weight / total else 1.0))
  }

  /** `indicator_list`: the indicators with a record, in id order. */
  function Entries(tr: Transcendentals, inds: seq<Indicator>, rm: map<int, IndicatorValue>, total: real)
    : Option<seq<DatasetEntry>>
  {
    if inds == [] then Some([])
    else
      var init := Entries(tr, inds[..|inds| - 1], rm, total);
      var ind := inds[|inds| - 1];
      if init.None? then None
      else if ind.id !in rm then init
      else
        var e := EntryOf(tr, ind, rm[ind.id], total);
        if e.None? then None else Some(init.value + [e.value])
  }

  /** One entry of `fused_list`. */
  datatype FusedEntry = FusedEntry(
    name: string,
    value: real,
    unit: string,
    how: string,
    inputs: seq<FusedInput>,
    mu: real,
    sigma: real,
    weight: real,
    distributionType: string,
    indicatorId: int)

  /** A fused value becomes an indicator of its own: normal around itself, with the negated rule id. */
  function FusedEntryOf(rule: FusionRule, o: FusionOutcome, count: nat): FusedEntry
    requires o.Fused?
  {
    FusedEntry(o.name, o.value, o.unit, o.how, o.inputs, o.value, DefaultSigma(o.value),
               if count > 0 then 1.0 / (count + 1) as real else 1.0, "normal", -rule.id)
  }

  /** `fused_list` over the mission's rules; a rule without valid inputs is dropped. */
  function FusedEntries(rules: seq<FusionRule>, count: nat, inds: seq<Indicator>, values: seq<IndicatorValue>,
                        missionId: int): Option<seq<FusedEntry>>
  {
    if rules == [] then Some([])
    else
      var init := FusedEntries(rules[..|rules| - 1], count, inds, values, missionId);
      var rule := rules[|rules| - 1];
      var o := Fusion(rule, inds, values, missionId);
      if init.None? || o.None? then None
      else if o.value.NoValidInputs? then init
      else Some(init.value + [FusedEntryOf(rule, o.value, count)])
  }

  /** The dict `generate_risk_dataset` returns, without its time stamp. */
  datatype Dataset = Dataset(
    missionId: int,
    indicators: seq<DatasetEntry>,
    fusedIndicators: seq<FusedEntry>,
    distributionStats: seq<(string, int)>,
    totalIndicators: int,
    totalFused: int)

  function MissionValues(values: seq<IndicatorValue>, missionId: int): seq<IndicatorValue>
  {
    Filter(values, (v: IndicatorValue) => v.missionId == missionId)
  }

  function MissionRules(rules: seq<FusionRule>, missionId: int): seq<FusionRule>
  {
    Filter(rules, (r: FusionRule) => r.missionId == missionId)
  }

  /** `generate_risk_dataset(mission_id)`; None where it raises. */
  function RiskDatasetOf(tr: Transcendentals, missionId: int, inds: seq<Indicator>, values: seq<IndicatorValue>,
                         rules: seq<FusionRule>): Option<Dataset>
  {
    var rm := RecordMap(MissionValues(values, missionId));
    var es := Entries(tr, inds, rm, MappedWeight(inds, rm));
    var mr := MissionRules(rules, missionId);
    var fs := FusedEntries(mr, |mr|, inds, values, missionId);
    if es.None? || fs.None? then None
    else Some(Dataset(missionId, es.value, fs.value, DistributionStats(inds), |es.value|, |fs.value|))
  }

  method GenerateRiskDataset(tr: Transcendentals, missionId: int, inds: seq<Indicator>, values: seq<IndicatorValue>,
                             rules: seq<FusionRule>) returns (r: Option<Dataset>)
    ensures r == RiskDatasetOf(tr, missionId, inds, values, rules)
  {
    var rm := RecordMap(MissionValues(values, missionId));
    var total := MappedWeight(inds, rm);
    var es := BuildEntries(tr, inds, rm, total);
    if es.None? {
      return None;
    }
    var mr := MissionRules(rules, missionId);
    var fs := BuildFused(mr, inds, values, missionId);
    if fs.None? {
      return None;
    }
    var stats := GetDistributionStats(inds);
    r := Some(Dataset(missionId, es.value, fs.value, stats, |es.value|, |fs.value|));
  }

  /** The first loop of `generate_risk_dataset`. */
  method BuildEntries(tr: Transcendentals, inds: seq<Indicator>, rm: map<int, IndicatorValue>, total: real)
    returns (r: Option<seq<DatasetEntry>>)
    ensures r == Entries(tr, inds, rm, total)
  {
    var list: seq<DatasetEntry> := [];
    var k := 0;
    while k < |inds|
      invariant 0 <= k <= |inds|
      invariant Entries(tr, inds[..k], rm, total) == Some(list)
    {
      var ind := inds[k];
      assert inds[..k + 1][..k] == inds[..k];
      if ind.id in rm {
        var e := EntryOf(tr, ind, rm[ind.id], total);
        if e.None? {
          EntriesPrefixNone(tr, inds, rm, total, k + 1);
          return None;
        }
        list := list + [e.value];
      }
      k := k + 1;
    }
    assert inds[..k] == inds;
    r := Some(list);
  }

  lemma {:induction false} EntriesPrefixNone(tr: Transcendentals, inds: seq<Indicator>, rm: map<int, IndicatorValue>,
                                             total: real, k: nat)
    requires k <= |inds| && Entries(tr, inds[..k], rm, total).None?
    ensures Entries(tr, inds, rm, total).None?
    decreases |inds| - k
  {
    if k < |inds| {
      assert inds[..k + 1][..k] == inds[..k];
      EntriesPrefixNone(tr, inds, rm, total, k + 1);
    } else {
      assert inds[..k] == inds;
    }
  }

  /** The second loop of `generate_risk_dataset`. */
  method BuildFused(rules: seq<FusionRule>, inds: seq<Indicator>, values: seq<IndicatorValue>, missionId: int)
    returns (r: Option<seq<FusedEntry>>)
    ensures r == FusedEntries(rules, |rules|, inds, values, missionId)
  {
    var list: seq<FusedEntry> := [];
    var k := 0;
    while k < |rules|
      invariant 0 <= k <= |rules|
      invariant FusedEntries(rules[..k], |rules|, inds, values, missionId) == Some(list)
    {
      var rule := rules[k];
      assert rules[..k + 1][..k] == rules[..k];
      var o := ApplyFusionRule(rule, inds, values, missionId);
      if o.None? {
        FusedPrefixNone(rules, |rules|, inds, values, missionId, k + 1);
        return None;
      }
      if o.value.Fused? {
        list := list + [FusedEntryOf(rule, o.value, |rules|)];
      }
      k := k + 1;
    }
    assert rules[..k] == rules;
    r := Some(list);
  }

  lemma {:induction false} FusedPrefixNone(rules: seq<FusionRule>, count: nat, inds: seq<Indicator>,
                                           values: seq<IndicatorValue>, missionId: int, k: nat)
    requires k <= |rules| && FusedEntries(rules[..k], count, inds, values, missionId).None?
    ensures FusedEntries(rules, count, inds, values, missionId).None?
    decreases |rules| - k
  {
    if k < |rules| {
      assert rules[..k + 1][..k] == rules[..k];
      FusedPrefixNone(rules, count, inds, values, missionId, k + 1);
    } else {
      assert rules[..k] == rules;
    }
  }

  /** Σ of the normalised weights is the weight of the indicators with a record over the total. */
  lemma {:induction false} EntriesWeights(tr: Transcendentals, inds: seq<Indicator>, rm: map<int, IndicatorValue>,
                                          total: real)
    requires total > 0.0 && Entries(tr, inds, rm, total).Some?
    ensures SumByReal(Entries(tr, inds, rm, total).value, EntryWeight) == MappedWeight(inds, rm) / total
    decreases |inds|
  {
    if inds != [] {
      var n := |inds| - 1;
      var ind := inds[n];
      EntriesWeights(tr, inds[..n], rm, total);
      var prev := Entries(tr, inds[..n], rm, total).value;
      if ind.id in rm {
        var e := EntryOf(tr, ind, rm[ind.id], total).value;
        SumByRealAppend(prev, e, EntryWeight);
        DivAdd(MappedWeight(inds[..n], rm), ind.weight, total);
      } else {
        assert MappedWeight(inds, rm) == MappedWeight(inds[..n], rm) + 0.0;
      }
    }
  }

  /** With a positive total weight the data set's indicator weights sum to 1; otherwise each is 1. */
  lemma DatasetWeights(tr: Transcendentals, missionId: int, inds: seq<Indicator>, values: seq<IndicatorValue>,
                       rules: seq<FusionRule>)
    requires RiskDatasetOf(tr, missionId, inds, values, rules).Some?
    ensures var rm := RecordMap(MissionValues(values, missionId));
      var d := RiskDatasetOf(tr, missionId, inds, values, rules).value;
      && (MappedWeight(inds, rm) > 0.0 ==> SumByReal(d.indicators, EntryWeight) == 1.0)
      && (MappedWeight(inds, rm) <= 0.0 ==> forall i :: 0 <= i < |d.indicators| ==> d.indicators[i].weight == 1.0)
  {
    var rm := RecordMap(MissionValues(values, missionId));
    var total := MappedWeight(inds, rm);
    if total > 0.0 {
      EntriesWeights(tr, inds, rm, total);
      DivSelf(total, total);
    } else {
      EntriesFallback(tr, inds, rm, total);
    }
  }

  lemma {:induction false} EntriesFallback(tr: Transcendentals, inds: seq<Indicator>, rm: map<int, IndicatorValue>,
                                           total: real)
    requires total <= 0.0 && Entries(tr, inds, rm, total).Some?
    ensures forall i :: 0 <= i < |Entries(tr, inds, rm, total).value| ==> Entries(tr, inds, rm, total).value[i].weight == 1.0
    decreases |inds|
  {
    if inds != [] {
      EntriesFallback(tr, inds[..|inds| - 1], rm, total);
    }
  }

  /**
   * Each entry is an indicator with a record of the mission: its value is the record's
   * number, or 0 when the record is not a number, and its source is the record's.
   */
  lemma {:induction false} EntriesFacts(tr: Transcendentals, inds: seq<Indicator>, rm: map<int, IndicatorValue>,
                                        total: real)
    requires Entries(tr, inds, rm, total).Some?
    ensures var es := Entries(tr, inds, rm, total).value;
      |es| <= |inds| &&
      forall e :: e in es ==>
        && e.indicatorId in rm
        && e.value == (if rm[e.indicatorId].value.Numeric? then rm[e.indicatorId].value.x else 0.0)
        && e.source == rm[e.indicatorId].source
        && exists k :: 0 <= k < |inds| && inds[k].id == e.indicatorId && inds[k].name == e.name
    decreases |inds|
  {
    if inds != [] {
      var n := |inds| - 1;
      EntriesFacts(tr, inds[..n], rm, total);
      var es := Entries(tr, inds, rm, total).value;
      forall e | e in es
        ensures exists k :: 0 <= k < |inds| && inds[k].id == e.indicatorId && inds[k].name == e.name
      {
        if e in Entries(tr, inds[..n], rm, total).value {
          var k :| 0 <= k < n && inds[..n][k].id == e.indicatorId && inds[..n][k].name == e.name;
          assert inds[k] == inds[..n][k];
        } else {
          assert inds[n].id == e.indicatorId && inds[n].name == e.name;
        }
      }
    }
  }

  /**
   * Every fused entry comes from a rule of the list whose fusion succeeded: it has the
   * negated rule id, μ equal to its value, σ = max(1e-6, |value| · 0.1), weight
   * 1 / (rules + 1) and type "normal".
   */
  lemma {:induction false} FusedEntriesFacts(rules: seq<FusionRule>, count: nat, inds: seq<Indicator>,
                                             values: seq<IndicatorValue>, missionId: int)
    requires count > 0 && FusedEntries(rules, count, inds, values, missionId).Some?
    ensures var fs := FusedEntries(rules, count, inds, values, missionId).value;
      |fs| <= |rules| &&
      forall f :: f in fs ==>
        && f.mu == f.value && f.sigma == MaxReal(0.000001, AbsReal(f.value) * 0.1)
        && f.weight == 1.0 / (count + 1) as real && f.distributionType == "normal"
        && exists k :: 0 <= k < |rules| && f.indicatorId == -rules[k].id &&
                       Fusion(rules[k], inds, values, missionId) == Some(Fused(f.name, f.value, f.unit, f.how, f.inputs))
    decreases |rules|
  {
    if rules != [] {
      var n := |rules| - 1;
      FusedEntriesFacts(rules[..n], count, inds, values, missionId);
      var fs := FusedEntries(rules, count, inds, values, missionId).value;
      var prev := FusedEntries(rules[..n], count, inds, values, missionId).value;
      forall f | f in fs
        ensures exists k :: 0 <= k < |rules| && f.indicatorId == -rules[k].id &&
                  Fusion(rules[k], inds, values, missionId) == Some(Fused(f.name, f.value, f.unit, f.how, f.inputs))
      {
        if f in prev {
          var k :| 0 <= k < n && f.indicatorId == -rules[..n][k].id &&
                   Fusion(rules[..n][k], inds, values, missionId) == Some(Fused(f.name, f.value, f.unit, f.how, f.inputs));
          assert rules[k] == rules[..n][k];
        } else {
          assert f.indicatorId == -rules[n].id;
        }
      }
    }
  }

  /** A rule whose fusion finds no valid inputs adds nothing to the fused list. */
  lemma FusedDropsEmptyRule(rules: seq<FusionRule>, count: nat, inds: seq<Indicator>, values: seq<IndicatorValue>,
                            missionId: int, rule: FusionRule)
    requires Fusion(rule, inds, values, missionId).Some? && Fusion(rule, inds, values, missionId).value.NoValidInputs?
    ensures FusedEntries(rules + [rule], count, inds, values, missionId) == FusedEntries(rules, count, inds, values, missionId)
  {
    assert (rules + [rule])[..|rules|] == rules;
  }

  /** The totals are the list lengths, and the distribution counts add up to all indicators. */
  lemma DatasetTotals(tr: Transcendentals, missionId: int, inds: seq<Indicator>, values: seq<IndicatorValue>,
                      rules: seq<FusionRule>)
    requires RiskDatasetOf(tr, missionId, inds, values, rules).Some?
    ensures var d := RiskDatasetOf(tr, missionId, inds, values, rules).value;
      && d.totalIndicators == |d.indicators| && d.totalFused == |d.fusedIndicators|
      && d.totalFused <= |MissionRules(rules, missionId)|
      && SumBy(d.distributionStats, CountOf) == |inds|
  {
    var mr := MissionRules(rules, missionId);
    StatsSumToCount(inds);
    if mr != [] {
      FusedEntriesFacts(mr, |mr|, inds, values, missionId);
    }
  }
}
