// The improved AHP model (app/models/ahp_improved.py): each indicator's weight is
// corrected by the normal density of its value around a reference mean, the
// corrected weights are renormalised, each value is mapped to a risk score in (0, 1)
// by a sigmoid, and the weighted sum is put on a four-level scale.
//
// exp, sqrt and pi are parameters (Common.Transcendentals); the proofs use only the
// facts collected in Common.Sound. Results are kept unrounded.
module Ahp {
  import opened Common
  import opened ModelBase
  import opened Records

  const Schema: seq<ParamSpec> := [
    ParamSpec("use_dataset", "使用风险数据集", BoolParam, PBool(true), "是否使用已生成的风险数据集，否则直接使用指标值",
              None, None, []),
    ParamSpec("default_sigma_ratio", "默认标准差比例", FloatParam, PFloat(0.1),
              "当指标无分布参数时，σ = |x| * ratio（默认10%）", Some(0.01), Some(1.0), []),
    ParamSpec("top_n", "Top-N贡献指标", IntParam, PInt(10), "输出的关键贡献指标数量", Some(1.0), Some(50.0), []),
    ParamSpec("risk_direction", "风险方向", EnumParam, PStr("higher_worse"), "指标值与风险的关系", None, None,
              ["higher_worse", "lower_worse", "auto"])]

  const Info: ModelInfo := ModelInfo("ahp_improved", "改进AHP综合评估",
    "利用正态分布密度函数修正AHP权重，计算综合风险得分", "综合评估", Schema)

  // ---------------------------------------------------------------------------
  // Inputs.

  /**
   * One indicator as `_run_ahp` reads it: value, weight and the reference mean and
   * deviation. `mu` or `sigma` is None where it is a JSON value that is not a number,
   * which makes the arithmetic of `_run_ahp` raise.
   */
  datatype AhpInput = AhpInput(indicatorId: Json, name: Json, x: real, w: real, mu: Option<real>, sigma: Option<real>)

  /** `max(1e-6, abs(x) * ratio)`, the deviation used when no parameter gives one. */
  function DefaultSigma(x: real, ratio: real): real
  {
    MaxReal(0.000001, AbsReal(x) * ratio)
  }

  /** The `dataset_json` path (`_parse_dataset`): any exception gives the empty list. */
  function ParseDataset(floatOf: string -> Option<real>, j: Json): (r: seq<AhpInput>)
    ensures !j.JObj? ==> r == []
  {
    var r := ParseDocument(floatOf, j);
    if r.Some? then r.value else []
  }

  /** The indicators, then the fused indicators; None where the parse raises. */
  function ParseDocument(floatOf: string -> Option<real>, j: Json): Option<seq<AhpInput>>
  {
    if !j.JObj? then None
    else
      var a := ParseEntries(floatOf, LookupOr(j.fields, "indicators", JArr([])), JInt(0));
      var b := ParseEntries(floatOf, LookupOr(j.fields, "fused_indicators", JArr([])), JInt(-1));
      if a.None? || b.None? then None else Some(a.value + b.value)
  }

  /** `for ind in v: result.append({...})`; an element that is not an object raises. */
  function ParseEntries(floatOf: string -> Option<real>, v: Json, defaultId: Json): Option<seq<AhpInput>>
  {
    var es := Elements(v);
    if es.None? then None
    else ParseList(floatOf, es.value, defaultId)
  }

  function ParseList(floatOf: string -> Option<real>, es: seq<Json>, defaultId: Json): (r: Option<seq<AhpInput>>)
    ensures r.Some? <==> forall i :: 0 <= i < |es| ==> ParseEntry(floatOf, es[i], defaultId).Some?
    ensures r.Some? ==> |r.value| == |es| && forall i :: 0 <= i < |es| ==> r.value[i] == ParseEntry(floatOf, es[i], defaultId).value
  {
    if exists i :: 0 <= i < |es| && ParseEntry(floatOf, es[i], defaultId).None? then None
    else Some(seq(|es|, i requires 0 <= i < |es| => ParseEntry(floatOf, es[i], defaultId).value))
  }

  /**
   * One entry: `float()` of value (default 0), weight (default 1.0), mu (default the
   * value) and sigma (default 1.0); the id and name are carried as they are.
   */
  function ParseEntry(floatOf: string -> Option<real>, e: Json, defaultId: Json): Option<AhpInput>
  {
    if !e.JObj? then None
    else
      var f := e.fields;
      var value := LookupOr(f, "value", JInt(0));
      var x := JsonFloat(floatOf, value);
      var w := JsonFloat(floatOf, LookupOr(f, "weight", JReal(1.0)));
      var mu := JsonFloat(floatOf, LookupOr(f, "mu", value));
      var sigma := JsonFloat(floatOf, LookupOr(f, "sigma", JReal(1.0)));
      if x.None? || w.None? || mu.None? || sigma.None? then None
      else Some(AhpInput(LookupOr(f, "indicator_id", defaultId), LookupOr(f, "name", JStr("")),
                         x.value, w.value, mu, sigma))
  }

  /** The stored `dataset_json` that is missing a list of indicators reads as no indicators. */
  lemma ParseDatasetExamples(floatOf: string -> Option<real>)
    ensures ParseDataset(floatOf, JObj([])) == []
    ensures ParseDataset(floatOf, JArr([])) == []
    ensures ParseDataset(floatOf, JObj([("indicators", JArr([JInt(3)]))])) == []
  {
    assert ParseEntry(floatOf, JInt(3), JInt(0)).None?;
  }

  /** An entry with only a value gets index 0 as id, an empty name and weight 1. */
  lemma ParseDatasetDefaults(floatOf: string -> Option<real>)
    ensures ParseDataset(floatOf, JObj([("indicators", JArr([JObj([("value", JInt(2))])]))]))
         == [AhpInput(JInt(0), JStr(""), 2.0, 1.0, Some(2.0), Some(1.0))]
  {
    var e := JObj([("value", JInt(2))]);
    assert ParseEntry(floatOf, e, JInt(0)) == Some(AhpInput(JInt(0), JStr(""), 2.0, 1.0, Some(2.0), Some(1.0)));
  }

  /**
   * A value written as text is read by `float()`: text it parses gives that number (and
   * the mean defaults to it), text it refuses makes the whole data set read as empty.
   */
  lemma ParseDatasetText(floatOf: string -> Option<real>, t: string)
    ensures var d := ParseDataset(floatOf, JObj([("fused_indicators", JArr([JObj([("value", JStr(t))])]))]));
      && (floatOf(t).Some? ==> d == [AhpInput(JInt(-1), JStr(""), floatOf(t).value, 1.0, floatOf(t), Some(1.0))])
      && (floatOf(t).None? ==> d == [])
  {
    var e := JObj([("value", JStr(t))]);
    var f := e.fields;
    assert f[1..] == [];
    assert Lookup(f, "mu") == None && Lookup(f, "weight") == None && Lookup(f, "sigma") == None;
    assert Lookup(f, "indicator_id") == None && Lookup(f, "name") == None;
    var p := ParseEntry(floatOf, e, JInt(-1));
    assert p == if floatOf(t).Some? then Some(AhpInput(JInt(-1), JStr(""), floatOf(t).value, 1.0, floatOf(t), Some(1.0))) else None;
    var doc := [("fused_indicators", JArr([e]))];
    assert doc[1..] == [];
    assert Lookup(doc, "indicators") == None;
    assert ParseEntries(floatOf, JArr([]), JInt(0)) == Some([]);
    var l := ParseList(floatOf, [e], JInt(-1));
    assert [e][0] == e;
    if p.Some? {
      assert l.Some? && |l.value| == 1 && l.value[0] == p.value;
      assert l.value == [p.value];
    }
    assert ParseEntries(floatOf, JArr([e]), JInt(-1)) == l;
  }

  /** `{v.indicator_id: v.value for v in values}`: the last value stored for each indicator. */
  function ValueMap(values: seq<IndicatorValue>): map<int, ValueText>
  {
    if values == [] then map[]
    else ValueMap(values[..|values| - 1])[values[|values| - 1].indicatorId := values[|values| - 1].value]
  }

  /** The map holds, for each indicator with values, the value of its last record. */
  lemma {:induction false} ValueMapLast(values: seq<IndicatorValue>, j: int)
    requires 0 <= j < |values|
    requires forall k :: j < k < |values| ==> values[k].indicatorId != values[j].indicatorId
    ensures values[j].indicatorId in ValueMap(values) && ValueMap(values)[values[j].indicatorId] == values[j].value
    decreases |values|
  {
    var n := |values| - 1;
    if j < n {
      assert forall k :: j < k < n ==> values[..n][k] == values[k];
      ValueMapLast(values[..n], j);
    }
  }

  lemma {:induction false} ValueMapKeys(values: seq<IndicatorValue>)
    ensures forall id :: id in ValueMap(values) <==> exists k :: 0 <= k < |values| && values[k].indicatorId == id
    decreases |values|
  {
    if values != [] {
      var n := |values| - 1;
      ValueMapKeys(values[..n]);
      forall id | id in ValueMap(values)
        ensures exists k :: 0 <= k < |values| && values[k].indicatorId == id
      {
        if id != values[n].indicatorId {
          assert id in ValueMap(values[..n]);
          var k :| 0 <= k < n && values[..n][k].indicatorId == id;
          assert values[k].indicatorId == id;
        }
      }
      forall id | exists k :: 0 <= k < |values| && values[k].indicatorId == id
        ensures id in ValueMap(values)
      {
        var k :| 0 <= k < |values| && values[k].indicatorId == id;
        if k < n {
          assert values[..n][k].indicatorId == id;
        }
      }
    }
  }

  /** `sum(ind.weight for ind in indicators if ind.id in value_map)`. */
  function PresentWeight(inds: seq<Indicator>, vm: map<int, ValueText>): real
  {
    if inds == [] then 0.0
    else PresentWeight(inds[..|inds| - 1], vm) + if inds[|inds| - 1].id in vm then inds[|inds| - 1].weight else 0.0
  }

  /** An indicator `_get_indicator_values` keeps: it has a value and `float()` accepts it. */
  predicate Usable(ind: Indicator, vm: map<int, ValueText>)
  {
    ind.id in vm && vm[ind.id].Numeric?
  }

  /**
   * Mean and deviation from the indicator's distribution parameters; anything that
   * raises inside the `try` keeps the defaults `(x, max(1e-6, |x| * 0.1))`.
   */
  function LiveMoments(tr: Transcendentals, ind: Indicator, x: real): (Option<real>, Option<real>)
  {
    var d := (Some(x), Some(DefaultSigma(x, 0.1)));
    if !ind.distParams.ParsedText? || !ind.distParams.value.JObj? then d
    else
      var f := ind.distParams.value.fields;
      if ind.distributionType == "normal" then
        (JsonNumber(LookupOr(f, "mu", JReal(x))), JsonNumber(LookupOr(f, "sigma", JReal(DefaultSigma(x, 0.1)))))
      else if ind.distributionType == "uniform" then
        var low := JsonNumber(LookupOr(f, "low", JReal(x - 1.0)));
        var high := JsonNumber(LookupOr(f, "high", JReal(x + 1.0)));
        var r12 := tr.sqrt(12.0);
        if low.None? || high.None? || r12 == 0.0 then d
        else (Some((low.value + high.value) / 2.0), Some((high.value - low.value) / r12))
      else if ind.distributionType == "triangular" then
        var low := JsonNumber(LookupOr(f, "low", JReal(x - 1.0)));
        var mode := JsonNumber(LookupOr(f, "mode", JReal(x)));
        var high := JsonNumber(LookupOr(f, "high", JReal(x + 1.0)));
        if low.None? || mode.None? || high.None? then d
        else
          var l, m, h := low.value, mode.value, high.value;
          (Some((l + m + h) / 3.0), Some(tr.sqrt((l * l + m * m + h * h - l * m - l * h - m * h) / 18.0)))
      else d
  }

  /** The entry for one indicator, or None where the loop `continue`s. */
  function LiveEntry(tr: Transcendentals, ind: Indicator, vm: map<int, ValueText>, total: real, n: nat): Option<AhpInput>
    requires n > 0
  {
    if !Usable(ind, vm) then None
    else
      var x := vm[ind.id].x;
      var w := if total > 0.0 then ind.weight / total else 1.0 / n as real;
      var ms := LiveMoments(tr, ind, x);
      Some(AhpInput(JInt(ind.id), JStr(ind.name), x, w, ms.0, ms.1))
  }

  function LiveList(tr: Transcendentals, inds: seq<Indicator>, vm: map<int, ValueText>, total: real, n: nat)
    : seq<AhpInput>
    requires n > 0 || inds == []
  {
    if inds == [] then []
    else
      var e := LiveEntry(tr, inds[|inds| - 1], vm, total, n);
      LiveList(tr, inds[..|inds| - 1], vm, total, n) + if e.Some? then [e.value] else []
  }

  /** `_get_indicator_values`: the live values of the mission, indicators in id order. */
  function LiveInputs(tr: Transcendentals, indicators: seq<Indicator>, values: seq<IndicatorValue>): seq<AhpInput>
  {
    var vm := ValueMap(values);
    LiveList(tr, indicators, vm, PresentWeight(indicators, vm), |indicators|)
  }

  /** The loop of `_get_indicator_values`. */
  method GetIndicatorValues(tr: Transcendentals, indicators: seq<Indicator>, values: seq<IndicatorValue>)
    returns (data: seq<AhpInput>)
    ensures data == LiveInputs(tr, indicators, values)
  {
    var vm := ValueMap(values);
    var total := PresentWeight(indicators, vm);
    data := [];
    var k := 0;
    while k < |indicators|
      invariant 0 <= k <= |indicators|
      invariant data == LiveList(tr, indicators[..k], vm, total, |indicators|)
    {
      var ind := indicators[k];
      assert indicators[..k + 1][..k] == indicators[..k];
      if Usable(ind, vm) {
        var x := vm[ind.id].x;
        var w := if total > 0.0 then ind.weight / total else 1.0 / |indicators| as real;
        var ms := LiveMoments(tr, ind, x);
        data := data + [AhpInput(JInt(ind.id), JStr(ind.name), x, w, ms.0, ms.1)];
      }
      k := k + 1;
    }
    assert indicators[..k] == indicators;
  }

  /** The weight of the indicators `_get_indicator_values` keeps. */
  function UsableWeight(inds: seq<Indicator>, vm: map<int, ValueText>): real
  {
    if inds == [] then 0.0
    else UsableWeight(inds[..|inds| - 1], vm) + if Usable(inds[|inds| - 1], vm) then inds[|inds| - 1].weight else 0.0
  }

  function InputWeight(d: AhpInput): real { d.w }

  /** With a positive total, the kept weights are the kept indicators' share of the total. */
  lemma {:induction false} LiveListWeights(tr: Transcendentals, inds: seq<Indicator>, vm: map<int, ValueText>,
                                           total: real, n: nat)
    requires n > 0 && total > 0.0
    ensures SumByReal(LiveList(tr, inds, vm, total, n), InputWeight) == UsableWeight(inds, vm) / total
    decreases |inds|
  {
    if inds != [] {
      var m := |inds| - 1;
      var init := inds[..m];
      var ind := inds[m];
      var prev := LiveList(tr, init, vm, total, n);
      LiveListWeights(tr, init, vm, total, n);
      var e := LiveEntry(tr, ind, vm, total, n);
      if e.Some? {
        SumByRealAppend(prev, e.value, InputWeight);
        DivAdd(UsableWeight(init, vm), ind.weight, total);
      } else {
        assert LiveList(tr, inds, vm, total, n) == prev;
      }
    }
  }

  /** When every stored value is a number, the kept weight is all of the present weight. */
  lemma {:induction false} UsableIsPresent(inds: seq<Indicator>, vm: map<int, ValueText>)
    requires forall i :: 0 <= i < |inds| && inds[i].id in vm ==> vm[inds[i].id].Numeric?
    ensures UsableWeight(inds, vm) == PresentWeight(inds, vm)
    decreases |inds|
  {
    if inds != [] {
      var m := |inds| - 1;
      assert forall i :: 0 <= i < m ==> inds[..m][i] == inds[i];
      UsableIsPresent(inds[..m], vm);
    }
  }

  /**
   * Live weights: with a positive total weight of the indicators that have values,
   * the kept weights are their share of that total, and they add up to 1 when every
   * stored value is a number; otherwise every kept weight is `1/len(indicators)`.
   * `LiveInputs` is this list for `vm == ValueMap(values)`.
   */
  lemma LiveWeights(tr: Transcendentals, inds: seq<Indicator>, vm: map<int, ValueText>)
    ensures var total := PresentWeight(inds, vm);
      var data := LiveList(tr, inds, vm, total, |inds|);
      && (total > 0.0 ==> SumByReal(data, InputWeight) == UsableWeight(inds, vm) / total)
      && (total > 0.0 && AllNumeric(inds, vm) ==> SumByReal(data, InputWeight) == 1.0)
      && (total <= 0.0 ==> forall d :: d in data ==> d.w * |inds| as real == 1.0)
  {
    var total := PresentWeight(inds, vm);
    if inds == [] {
    } else if total > 0.0 {
      LiveListWeights(tr, inds, vm, total, |inds|);
      if AllNumeric(inds, vm) {
        LiveListShare(tr, inds, vm, |inds|);
      }
    } else {
      LiveListFallback(tr, inds, vm, total, |inds|);
    }
  }

  /** With a positive present weight and only numeric values, the kept weights add up to 1. */
  lemma LiveListShare(tr: Transcendentals, inds: seq<Indicator>, vm: map<int, ValueText>, n: nat)
    requires n > 0 && PresentWeight(inds, vm) > 0.0 && AllNumeric(inds, vm)
    ensures SumByReal(LiveList(tr, inds, vm, PresentWeight(inds, vm), n), InputWeight) == 1.0
  {
    var total := PresentWeight(inds, vm);
    LiveListWeights(tr, inds, vm, total, n);
    UsableIsPresent(inds, vm);
    DivSelf(UsableWeight(inds, vm), total);
  }

  /** Every indicator that has a value has a numeric one. */
  predicate AllNumeric(inds: seq<Indicator>, vm: map<int, ValueText>)
  {
    forall i :: 0 <= i < |inds| && inds[i].id in vm ==> vm[inds[i].id].Numeric?
  }

  lemma {:induction false} LiveListFallback(tr: Transcendentals, inds: seq<Indicator>, vm: map<int, ValueText>,
                                            total: real, n: nat)
    requires n > 0 && total <= 0.0
    ensures forall d :: d in LiveList(tr, inds, vm, total, n) ==> d.w * n as real == 1.0
    decreases |inds|
  {
    if inds != [] {
      LiveListFallback(tr, inds[..|inds| - 1], vm, total, n);
    }
  }

  /** The kept indicators are exactly the usable ones, in order, each with its last stored value. */
  lemma {:induction false} LiveListMembers(tr: Transcendentals, inds: seq<Indicator>, vm: map<int, ValueText>,
                                           total: real, n: nat)
    requires n > 0
    ensures |LiveList(tr, inds, vm, total, n)| == CountBy(inds, (ind: Indicator) => Usable(ind, vm))
    ensures forall d :: d in LiveList(tr, inds, vm, total, n) ==> KeptFrom(d, inds, vm)
    decreases |inds|
  {
    if inds != [] {
      var m := |inds| - 1;
      LiveListMembers(tr, inds[..m], vm, total, n);
      forall d | d in LiveList(tr, inds, vm, total, n)
        ensures KeptFrom(d, inds, vm)
      {
        if d in LiveList(tr, inds[..m], vm, total, n) {
          var i :| 0 <= i < m && Usable(inds[..m][i], vm) && d.indicatorId == JInt(inds[..m][i].id)
            && d.x == vm[inds[..m][i].id].x;
          assert inds[..m][i] == inds[i];
        } else {
          assert Usable(inds[m], vm);
        }
      }
    }
  }

  /** `d` is the entry of a usable indicator of `inds`, with that indicator's stored value. */
  predicate KeptFrom(d: AhpInput, inds: seq<Indicator>, vm: map<int, ValueText>)
  {
    exists i :: 0 <= i < |inds| && Usable(inds[i], vm) && d.indicatorId == JInt(inds[i].id) && d.x == vm[inds[i].id].x
  }

  /** Which input `_run_ahp` uses: the stored data set when asked for and present, else the live values. */
  function IndicatorData(tr: Transcendentals, floatOf: string -> Option<real>, params: map<string, ParamValue>, dataset: Option<RiskDataset>,
                         indicators: seq<Indicator>, values: seq<IndicatorValue>): seq<AhpInput>
  {
    var useDataset := if "use_dataset" in params then Truthy(params["use_dataset"]) else true;
    if useDataset && dataset.Some? && !dataset.value.dataset.EmptyText? then
      match dataset.value.dataset
      case ParsedText(j) => ParseDataset(floatOf, j)
      case _ => []
    else LiveInputs(tr, indicators, values)
  }

  /**
   * A stored data set that does not parse gives no indicators at all: the live values
   * are used only when the data set is switched off, missing or empty.
   */
  lemma IndicatorDataChoice(tr: Transcendentals, floatOf: string -> Option<real>, params: map<string, ParamValue>, dataset: Option<RiskDataset>,
                            indicators: seq<Indicator>, values: seq<IndicatorValue>)
    ensures var useDataset := "use_dataset" !in params || Truthy(params["use_dataset"]);
      var data := IndicatorData(tr, floatOf, params, dataset, indicators, values);
      && (useDataset && dataset.Some? && dataset.value.dataset.UnparsableText? ==> data == [])
      && (useDataset && dataset.Some? && dataset.value.dataset.ParsedText? ==> data == ParseDataset(floatOf, dataset.value.dataset.value))
      && (!useDataset || dataset.None? || dataset.value.dataset.EmptyText? ==> data == LiveInputs(tr, indicators, values))
  {
  }

  // ---------------------------------------------------------------------------
  // The correction factor.

  /** The deviation after `if sigma < 1e-10: sigma = 1e-6`. */
  function SigmaFloor(sigma: real): (s: real)
    ensures s > 0.0
  {
    if sigma < 0.0000000001 then 0.000001 else sigma
  }

  /** The normal density `1/(σ√(2π)) · exp(-z²/2)`; the guard never fires when `Sound(tr)`. */
  function Density(tr: Transcendentals, sigma: real, z: real): real
  {
    var d := sigma * tr.sqrt(2.0 * tr.pi);
    if d == 0.0 then 0.0 else (1.0 / d) * tr.exp(-0.5 * z * z)
  }

  lemma DensityPositive(tr: Transcendentals, sigma: real, z: real)
    requires Sound(tr) && sigma > 0.0
    ensures Density(tr, sigma, z) > 0.0
  {
    SqrtPositive(tr, 2.0 * tr.pi);
    var d := sigma * tr.sqrt(2.0 * tr.pi);
    assert d > 0.0;
    assert 1.0 / d > 0.0;
    assert tr.exp(-0.5 * z * z) > 0.0;
  }

  /** The first loop of `_run_ahp` for one indicator: floored σ, z-score and correction factor. */
  datatype Prepared = Prepared(id: Json, name: Json, x: real, w: real, mu: real, sigma: real, z: real, c: real)

  function Prepare(tr: Transcendentals, d: AhpInput): Option<Prepared>
  {
    if d.mu.None? || d.sigma.None? then None
    else
      var sigma := SigmaFloor(d.sigma.value);
      var z := (d.x - d.mu.value) / sigma;
      Some(Prepared(d.indicatorId, d.name, d.x, d.w, d.mu.value, sigma, z, Density(tr, sigma, z)))
  }

  /**
   * The first loop over all indicators. The default σ, `max(1e-6, abs(x) * ratio)`, is
   * computed at every step even though both producers always supply σ, so a ratio that
   * is not a number makes the loop raise; so does a mean or deviation that is not one.
   */
  function PrepareAll(tr: Transcendentals, ratio: Option<real>, ds: seq<AhpInput>): (r: Option<seq<Prepared>>)
    ensures r.Some? ==> |r.value| == |ds|
  {
    if ds != [] && (ratio.None? || exists i :: 0 <= i < |ds| && Prepare(tr, ds[i]).None?) then None
    else Some(seq(|ds|, i requires 0 <= i < |ds| => Prepare(tr, ds[i]).value))
  }

  function CorrectionTerm(p: Prepared): real { p.w * p.c }

  /** `weight_correction_sum`, Σ w·c. */
  function CorrectionSum(ps: seq<Prepared>): real
  {
    SumByReal(ps, CorrectionTerm)
  }

  // ---------------------------------------------------------------------------
  // The corrected weights and the score.

  datatype Direction = HigherWorse | LowerWorse | Auto

  /** `risk_direction`: anything other than the two named directions is handled as "auto". */
  function DirectionOf(params: map<string, ParamValue>): Direction
  {
    var v := if "risk_direction" in params then params["risk_direction"] else PStr("higher_worse");
    if v == PStr("higher_worse") then HigherWorse
    else if v == PStr("lower_worse") then LowerWorse
    else Auto
  }

  /** `r_i`: σ(z) when higher values are worse, σ(-z) when lower ones are, σ(|z|) otherwise. */
  function RiskScore(tr: Transcendentals, dir: Direction, z: real): real
  {
    match dir
    case HigherWorse => Sigmoid(tr, z)
    case LowerWorse => Sigmoid(tr, -z)
    case Auto => Sigmoid(tr, AbsReal(z))
  }

  lemma RiskScoreBounds(tr: Transcendentals, dir: Direction, z: real)
    requires Sound(tr)
    ensures 0.0 < RiskScore(tr, dir, z) < 1.0
    ensures dir == Auto ==> RiskScore(tr, dir, z) >= 0.5
    ensures dir == HigherWorse && z >= 0.0 ==> RiskScore(tr, dir, z) >= 0.5
    ensures dir == LowerWorse && z <= 0.0 ==> RiskScore(tr, dir, z) >= 0.5
  {
    match dir
    case HigherWorse => SigmoidBounds(tr, z);
    case LowerWorse => SigmoidBounds(tr, -z);
    case Auto => SigmoidBounds(tr, AbsReal(z));
  }

  /** `w'`: `w·c / Σ w·c` when that sum is positive, else `w / n`. */
  function CorrectedWeight(p: Prepared, wc: real, n: nat): real
    requires n > 0
  {
    if wc > 0.0 then p.w * p.c / wc else p.w / n as real
  }

  datatype IndicatorResult = IndicatorResult(
    indicatorId: Json,
    indicatorName: Json,
    rawValue: real,
    normalizedValue: real,
    originalWeight: real,
    correctionFactor: real,
    correctedWeight: real,
    contribution: real,
    zScore: real,
    mu: real,
    sigma: real)

  function ContributionOf(r: IndicatorResult): real { r.contribution }
  function CorrectedWeightOf(r: IndicatorResult): real { r.correctedWeight }

  function Score(tr: Transcendentals, dir: Direction, p: Prepared, wc: real, n: nat): IndicatorResult
    requires n > 0
  {
    var wPrime := CorrectedWeight(p, wc, n);
    var ri := RiskScore(tr, dir, p.z);
    IndicatorResult(p.id, p.name, p.x, ri, p.w, p.c, wPrime, wPrime * ri, p.z, p.mu, p.sigma)
  }

  function ScoreList(tr: Transcendentals, dir: Direction, ps: seq<Prepared>, wc: real, n: nat): seq<IndicatorResult>
    requires n > 0
  {
    seq(|ps|, i requires 0 <= i < |ps| => Score(tr, dir, ps[i], wc, n))
  }

  lemma ScoreListAppend(tr: Transcendentals, dir: Direction, ps: seq<Prepared>, k: nat, wc: real, n: nat)
    requires n > 0 && k < |ps|
    ensures ScoreList(tr, dir, ps[..k + 1], wc, n) == ScoreList(tr, dir, ps[..k], wc, n) + [Score(tr, dir, ps[k], wc, n)]
  {
    var a := ScoreList(tr, dir, ps[..k + 1], wc, n);
    var b := ScoreList(tr, dir, ps[..k], wc, n) + [Score(tr, dir, ps[k], wc, n)];
    assert |a| == |b|;
    forall i | 0 <= i < |a| ensures a[i] == b[i] {
      if i < k {
        assert ps[..k + 1][i] == ps[..k][i];
      }
    }
  }

  /** `_score_to_level`. */
  function ScoreToLevel(score: real): (level: string)
  {
    if score < 0.25 then "Low"
    else if score < 0.5 then "Medium"
    else if score < 0.75 then "High"
    else "Extreme"
  }

  function LevelRank(level: string): nat
  {
    if level == "Low" then 0 else if level == "Medium" then 1 else if level == "High" then 2 else 3
  }

  /** Each threshold belongs to the upper level, and the scale never goes down as the score grows. */
  lemma ScoreToLevelFacts(a: real, b: real)
    ensures ScoreToLevel(0.25) == "Medium" && ScoreToLevel(0.5) == "High" && ScoreToLevel(0.75) == "Extreme"
    ensures ScoreToLevel(0.0) == "Low" && ScoreToLevel(1.0) == "Extreme"
    ensures a <= b ==> LevelRank(ScoreToLevel(a)) <= LevelRank(ScoreToLevel(b))
    ensures ScoreToLevel(a) in {"Low", "Medium", "High", "Extreme"}
  {
  }

  datatype AhpResult = AhpResult(
    missionId: int,
    totalScore: real,
    riskLevel: string,
    indicatorResults: seq<IndicatorResult>,
    topContributors: seq<IndicatorResult>,
    weightSumCheck: real)

  /** The result for no indicator data: score 0, "Low", no entries, `weight_sum_check` at its default 1.0. */
  function EmptyResult(missionId: int): AhpResult
  {
    AhpResult(missionId, 0.0, "Low", [], [], 1.0)
  }

  /** `params.get("default_sigma_ratio", 0.1)` as the arithmetic sees it. */
  function RatioParam(params: map<string, ParamValue>): Option<real>
  {
    if "default_sigma_ratio" in params then NumberParam(params["default_sigma_ratio"]) else Some(0.1)
  }

  /** `_run_ahp` once the indicator data is chosen; None where it raises. */
  function Evaluate(tr: Transcendentals, missionId: int, params: map<string, ParamValue>, data: seq<AhpInput>)
    : Option<AhpResult>
  {
    if data == [] then Some(EmptyResult(missionId))
    else
      var ps := PrepareAll(tr, RatioParam(params), data);
      var stop := SliceStopParam(params, "top_n", 10);
      if ps.None? || stop.None? then None
      else Some(Conclude(missionId, tr, DirectionOf(params), ps.value, stop.value))
  }

  /** The second half of `_run_ahp`: corrected weights, scores, total, level and the Top-N. */
  function Conclude(missionId: int, tr: Transcendentals, dir: Direction, ps: seq<Prepared>, stop: SliceStop): AhpResult
    requires ps != []
  {
    var rs := ScoreList(tr, dir, ps, CorrectionSum(ps), |ps|);
    var total := SumByReal(rs, ContributionOf);
    AhpResult(missionId, total, ScoreToLevel(total), rs, PySlice(SortDesc(rs, ContributionOf), stop),
              SumByReal(rs, CorrectedWeightOf))
  }

  /** `AHPImprovedModel.run`: a missing or zero `mission_id` is refused; an exception fails the run. */
  function Assess(tr: Transcendentals, floatOf: string -> Option<real>, missionId: Option<int>, params: map<string, ParamValue>,
                  dataset: Option<RiskDataset>, indicators: seq<Indicator>, values: seq<IndicatorValue>)
    : RunResult<AhpResult>
  {
    if missionId.None? || missionId.value == 0 then Failure(MissingMissionId)
    else
      var r := Evaluate(tr, missionId.value, params, IndicatorData(tr, floatOf, params, dataset, indicators, values));
      if r.None? then Failure(EvaluationFailed) else Success(r.value)
  }

  /** `AHPImprovedModel.run` with `_run_ahp`. */
  method Run(tr: Transcendentals, floatOf: string -> Option<real>, missionId: Option<int>, params: map<string, ParamValue>,
             dataset: Option<RiskDataset>, indicators: seq<Indicator>, values: seq<IndicatorValue>)
    returns (r: RunResult<AhpResult>)
    ensures r == Assess(tr, floatOf, missionId, params, dataset, indicators, values)
  {
    if missionId.None? || missionId.value == 0 {
      return Failure(MissingMissionId);
    }
    var useDataset := if "use_dataset" in params then Truthy(params["use_dataset"]) else true;
    var data: seq<AhpInput>;
    if useDataset && dataset.Some? && !dataset.value.dataset.EmptyText? {
      data := if dataset.value.dataset.ParsedText? then ParseDataset(floatOf, dataset.value.dataset.value) else [];
    } else {
      data := GetIndicatorValues(tr, indicators, values);
    }
    var result := RunAhp(tr, missionId.value, params, data);
    r := if result.None? then Failure(EvaluationFailed) else Success(result.value);
  }

  /** The two loops of `_run_ahp`. */
  method RunAhp(tr: Transcendentals, missionId: int, params: map<string, ParamValue>, data: seq<AhpInput>)
    returns (r: Option<AhpResult>)
    ensures r == Evaluate(tr, missionId, params, data)
  {
    if data == [] {
      return Some(EmptyResult(missionId));
    }
    var ratio := RatioParam(params);
    var ps: seq<Prepared> := [];
    var wc := 0.0;
    var k := 0;
    while k < |data|
      invariant 0 <= k <= |data|
      invariant k > 0 ==> ratio.Some?
      invariant |ps| == k
      invariant forall i :: 0 <= i < k ==> Prepare(tr, data[i]).Some? && ps[i] == Prepare(tr, data[i]).value
      invariant wc == CorrectionSum(ps)
    {
      if ratio.None? {
        return None;
      }
      var p := Prepare(tr, data[k]);
      if p.None? {
        return None;
      }
      SumByRealAppend(ps, p.value, CorrectionTerm);
      wc := wc + p.value.w * p.value.c;
      ps := ps + [p.value];
      k := k + 1;
    }
    assert ps == PrepareAll(tr, ratio, data).value;
    var stop := SliceStopParam(params, "top_n", 10);
    if stop.None? {
      return None;
    }
    var result := ScoreAll(missionId, tr, DirectionOf(params), ps, wc, stop.value);
    r := Some(result);
  }

  /** The result of the second loop, ordered, cut to `top_n` and with its level. */
  method ScoreAll(missionId: int, tr: Transcendentals, dir: Direction, ps: seq<Prepared>, wc: real, stop: SliceStop)
    returns (result: AhpResult)
    requires ps != [] && wc == CorrectionSum(ps)
    ensures result == Conclude(missionId, tr, dir, ps, stop)
  {
    var rs, total := ScoreRows(tr, dir, ps, wc);
    var level := ScoreToLevel(total);
    var top := PySlice(SortDesc(rs, ContributionOf), stop);
    result := AhpResult(missionId, total, level, rs, top, SumByReal(rs, CorrectedWeightOf));
  }

  /** The second loop: corrected weight, score and contribution of each indicator. */
  method ScoreRows(tr: Transcendentals, dir: Direction, ps: seq<Prepared>, wc: real)
    returns (rs: seq<IndicatorResult>, total: real)
    requires ps != []
    ensures rs == ScoreList(tr, dir, ps, wc, |ps|)
    ensures total == SumByReal(rs, ContributionOf)
  {
    var n := |ps|;
    rs := [];
    total := 0.0;
    var k := 0;
    while k < n
      invariant 0 <= k <= n
      invariant rs == ScoreList(tr, dir, ps[..k], wc, n)
      invariant total == SumByReal(rs, ContributionOf)
    {
      var item := Score(tr, dir, ps[k], wc, n);
      SumByRealAppend(rs, item, ContributionOf);
      ScoreListAppend(tr, dir, ps, k, wc, n);
      total := total + item.contribution;
      rs := rs + [item];
      k := k + 1;
    }
    assert ps[..k] == ps;
  }

  // ---------------------------------------------------------------------------
  // What the result means.

  /** A run is refused exactly for a missing or zero mission id; no data gives score 0 and "Low". */
  lemma AssessFacts(tr: Transcendentals, floatOf: string -> Option<real>, missionId: Option<int>, params: map<string, ParamValue>,
                    dataset: Option<RiskDataset>, indicators: seq<Indicator>, values: seq<IndicatorValue>)
    ensures var r := Assess(tr, floatOf, missionId, params, dataset, indicators, values);
      && (r == Failure(MissingMissionId) <==> missionId.None? || missionId.value == 0)
      && ((missionId.Some? && missionId.value != 0 && IndicatorData(tr, floatOf, params, dataset, indicators, values) == [])
          ==> r == Success(AhpResult(missionId.value, 0.0, "Low", [], [], 1.0)))
  {
  }

  /**
   * The run fails only when a parameter it computes with is not of the right kind, or an
   * indicator's mean or deviation is not a number.
   */
  lemma EvaluateSucceeds(tr: Transcendentals, missionId: int, params: map<string, ParamValue>, data: seq<AhpInput>)
    ensures Evaluate(tr, missionId, params, data).Some? <==>
      data == [] || (RatioParam(params).Some? && SliceStopParam(params, "top_n", 10).Some?
                     && forall i :: 0 <= i < |data| ==> data[i].mu.Some? && data[i].sigma.Some?)
  {
  }

  /** Each row's deviation is positive, and differs from the input only when the input is below 1e-10. */
  lemma PreparedFacts(tr: Transcendentals, d: AhpInput)
    requires Prepare(tr, d).Some?
    ensures var p := Prepare(tr, d).value;
      && p.sigma > 0.0
      && (d.sigma.value >= 0.0000000001 ==> p.sigma == d.sigma.value)
      && (d.sigma.value < 0.0000000001 ==> p.sigma == 0.000001)
      && p.z * p.sigma == p.x - p.mu
      && (Sound(tr) ==> p.c > 0.0)
  {
    var p := Prepare(tr, d).value;
    if Sound(tr) {
      DensityPositive(tr, p.sigma, p.z);
    }
  }

  /** The rows of `Conclude` are the prepared indicators, scored, in input order. */
  lemma ConcludeRows(missionId: int, tr: Transcendentals, dir: Direction, ps: seq<Prepared>, stop: SliceStop)
    requires ps != []
    ensures var d := Conclude(missionId, tr, dir, ps, stop);
      && |d.indicatorResults| == |ps|
      && forall i :: 0 <= i < |ps| ==> d.indicatorResults[i] == Score(tr, dir, ps[i], CorrectionSum(ps), |ps|)
  {
  }

  /** With a positive Σ w·c the corrected weights add up to 1. */
  lemma CorrectedWeightsSumToOne(tr: Transcendentals, dir: Direction, ps: seq<Prepared>)
    requires ps != [] && CorrectionSum(ps) > 0.0
    ensures SumByReal(ScoreList(tr, dir, ps, CorrectionSum(ps), |ps|), CorrectedWeightOf) == 1.0
  {
    var wc := CorrectionSum(ps);
    WeightPrefixSum(tr, dir, ps, wc, |ps|);
    assert ps[..|ps|] == ps;
    DivSelf(wc, wc);
  }

  /** Over the first k rows, Σ w' is the rows' Σ w·c over the full Σ w·c. */
  lemma {:induction false} WeightPrefixSum(tr: Transcendentals, dir: Direction, ps: seq<Prepared>, wc: real, k: nat)
    requires ps != [] && wc > 0.0 && k <= |ps|
    ensures SumByReal(ScoreList(tr, dir, ps[..k], wc, |ps|), CorrectedWeightOf) == SumByReal(ps[..k], CorrectionTerm) / wc
    decreases k
  {
    if k == 0 {
      assert ScoreList(tr, dir, ps[..0], wc, |ps|) == [];
    } else {
      var j := k - 1;
      WeightPrefixSum(tr, dir, ps, wc, j);
      ScoreListAppend(tr, dir, ps, j, wc, |ps|);
      SumByRealAppend(ScoreList(tr, dir, ps[..j], wc, |ps|), Score(tr, dir, ps[j], wc, |ps|), CorrectedWeightOf);
      assert ps[..k][..j] == ps[..j];
      DivAdd(SumByReal(ps[..j], CorrectionTerm), CorrectionTerm(ps[j]), wc);
    }
  }

  /** With Σ w·c not positive every corrected weight is `w / n`. */
  lemma FallbackWeights(tr: Transcendentals, dir: Direction, ps: seq<Prepared>)
    requires ps != [] && CorrectionSum(ps) <= 0.0
    ensures forall i :: 0 <= i < |ps| ==>
      ScoreList(tr, dir, ps, CorrectionSum(ps), |ps|)[i].correctedWeight == ps[i].w / |ps| as real
  {
  }

  /**
   * When every indicator has the same correction factor c > 0, the correction cancels
   * out and `w' = w / Σ w`.
   */
  lemma SharedFactorCancels(tr: Transcendentals, dir: Direction, ps: seq<Prepared>, c: real)
    requires ps != [] && c > 0.0 && forall i :: 0 <= i < |ps| ==> ps[i].c == c
    requires SumByReal(ps, InputWeightOf) > 0.0
    ensures forall i :: 0 <= i < |ps| ==>
      ScoreList(tr, dir, ps, CorrectionSum(ps), |ps|)[i].correctedWeight == ps[i].w / SumByReal(ps, InputWeightOf)
  {
    var sw := SumByReal(ps, InputWeightOf);
    SumByRealScaled(ps, ps, CorrectionTerm, InputWeightOf, c);
    forall i | 0 <= i < |ps| {
      SharedFactorAt(tr, dir, ps, c, sw, i);
    }
  }

  lemma SharedFactorAt(tr: Transcendentals, dir: Direction, ps: seq<Prepared>, c: real, sw: real, i: nat)
    requires i < |ps| && c > 0.0 && sw > 0.0 && ps[i].c == c && CorrectionSum(ps) == c * sw
    ensures ScoreList(tr, dir, ps, CorrectionSum(ps), |ps|)[i].correctedWeight == ps[i].w / sw
  {
    CancelFactor(ps[i].w, c, sw);
  }

  lemma CancelFactor(w: real, c: real, sw: real)
    requires c > 0.0 && sw > 0.0
    ensures w * c / (c * sw) == w / sw
  {
    var q := w / sw;
    assert q * sw == w;
    assert q * (c * sw) == w * c;
  }

  function InputWeightOf(p: Prepared): real { p.w }

  /**
   * With non-negative weights the total score lies in [0, 1], every normalised score
   * lies in (0, 1), and it is at least 1/2 in the "auto" direction.
   */
  lemma ConcludeBounds(missionId: int, tr: Transcendentals, dir: Direction, ps: seq<Prepared>, stop: SliceStop)
    requires Sound(tr) && ps != []
    requires forall i :: 0 <= i < |ps| ==> ps[i].w >= 0.0 && ps[i].c > 0.0
    ensures var d := Conclude(missionId, tr, dir, ps, stop);
      && 0.0 <= d.totalScore <= 1.0
      && (forall i :: 0 <= i < |d.indicatorResults| ==> 0.0 < d.indicatorResults[i].normalizedValue < 1.0)
      && (dir == Auto ==> forall i :: 0 <= i < |d.indicatorResults| ==> d.indicatorResults[i].normalizedValue >= 0.5)
  {
    NormalizedBounds(tr, dir, ps, CorrectionSum(ps));
    TotalScoreBounds(tr, dir, ps);
  }

  lemma NormalizedBounds(tr: Transcendentals, dir: Direction, ps: seq<Prepared>, wc: real)
    requires Sound(tr) && ps != []
    ensures var rs := ScoreList(tr, dir, ps, wc, |ps|);
      && (forall i :: 0 <= i < |rs| ==> 0.0 < rs[i].normalizedValue < 1.0)
      && (dir == Auto ==> forall i :: 0 <= i < |rs| ==> rs[i].normalizedValue >= 0.5)
  {
    var rs := ScoreList(tr, dir, ps, wc, |ps|);
    forall i | 0 <= i < |ps|
      ensures 0.0 < rs[i].normalizedValue < 1.0
      ensures dir == Auto ==> rs[i].normalizedValue >= 0.5
    {
      RiskScoreBounds(tr, dir, ps[i].z);
    }
  }

  lemma TotalScoreBounds(tr: Transcendentals, dir: Direction, ps: seq<Prepared>)
    requires Sound(tr) && ps != []
    requires forall i :: 0 <= i < |ps| ==> ps[i].w >= 0.0 && ps[i].c > 0.0
    ensures var s := SumByReal(ScoreList(tr, dir, ps, CorrectionSum(ps), |ps|), ContributionOf);
      0.0 <= s <= 1.0
  {
    ContributionsBelowWeights(tr, dir, ps);
    WeightTotalAtMostOne(tr, dir, ps);
  }

  /** Σ contribution lies between 0 and Σ w'. */
  lemma ContributionsBelowWeights(tr: Transcendentals, dir: Direction, ps: seq<Prepared>)
    requires Sound(tr) && ps != []
    requires forall i :: 0 <= i < |ps| ==> ps[i].w >= 0.0 && ps[i].c > 0.0
    ensures var rs := ScoreList(tr, dir, ps, CorrectionSum(ps), |ps|);
      0.0 <= SumByReal(rs, ContributionOf) <= SumByReal(rs, CorrectedWeightOf)
  {
    var wc := CorrectionSum(ps);
    var n := |ps|;
    var rs := ScoreList(tr, dir, ps, wc, n);
    SumByRealNonNegative(ps, CorrectionTerm);
    if wc <= 0.0 {
      SumByRealZero(ps, CorrectionTerm);
    }
    forall i | 0 <= i < n
      ensures 0.0 <= rs[i].contribution <= rs[i].correctedWeight
    {
      ContributionBounds(tr, dir, ps[i], wc, n);
    }
    SumByRealNonNegative(rs, ContributionOf);
    SumByRealMonotone(rs, ContributionOf, CorrectedWeightOf);
  }

  /** With non-negative weights and positive correction factors, Σ w' is at most 1. */
  lemma WeightTotalAtMostOne(tr: Transcendentals, dir: Direction, ps: seq<Prepared>)
    requires Sound(tr) && ps != []
    requires forall i :: 0 <= i < |ps| ==> ps[i].w >= 0.0 && ps[i].c > 0.0
    ensures var rs := ScoreList(tr, dir, ps, CorrectionSum(ps), |ps|);
      SumByReal(rs, CorrectedWeightOf) <= 1.0
  {
    var wc := CorrectionSum(ps);
    var n := |ps|;
    var rs := ScoreList(tr, dir, ps, wc, n);
    if wc > 0.0 {
      CorrectedWeightsSumToOne(tr, dir, ps);
    } else {
      SumByRealNonNegative(ps, CorrectionTerm);
      SumByRealZero(ps, CorrectionTerm);
      forall i | 0 <= i < n
        ensures rs[i].correctedWeight == 0.0
      {
        ContributionBounds(tr, dir, ps[i], wc, n);
      }
      SumByRealScale(rs, CorrectedWeightOf, CorrectedWeightOf, 0.0);
    }
  }

  lemma ContributionBounds(tr: Transcendentals, dir: Direction, p: Prepared, wc: real, n: nat)
    requires Sound(tr) && n > 0 && p.w >= 0.0 && p.c > 0.0 && wc >= 0.0
    requires wc == 0.0 ==> p.w * p.c == 0.0
    ensures var r := Score(tr, dir, p, wc, n);
      && 0.0 <= r.contribution <= r.correctedWeight
      && (wc == 0.0 ==> r.correctedWeight == 0.0)
  {
    RiskScoreBounds(tr, dir, p.z);
    var r := Score(tr, dir, p, wc, n);
    if wc > 0.0 {
      assert p.w * p.c >= 0.0;
      assert r.correctedWeight >= 0.0;
    } else {
      assert p.w == 0.0;
    }
  }

  /**
   * The Top-N list is sorted by contribution, descending, drawn from the rows, and as long
   * as `top_n` allows; the total is the sum of the contributions and the level is the
   * level of the total.
   */
  lemma ConcludeTop(missionId: int, tr: Transcendentals, dir: Direction, ps: seq<Prepared>, stop: SliceStop)
    requires ps != []
    ensures var d := Conclude(missionId, tr, dir, ps, stop);
      && SortedDesc(d.topContributors, ContributionOf)
      && (forall x :: x in d.topContributors ==> x in d.indicatorResults)
      && (stop.StopAt? && stop.k >= 0 ==> |d.topContributors| == MinInt(stop.k, |ps|))
      && (stop.NoStop? ==> |d.topContributors| == |ps|)
      && d.totalScore == SumByReal(d.indicatorResults, ContributionOf)
      && d.riskLevel == ScoreToLevel(d.totalScore)
  {
    var rs := ScoreList(tr, dir, ps, CorrectionSum(ps), |ps|);
    SortedSliceFacts(rs, ContributionOf, stop);
  }

  // ---------------------------------------------------------------------------
  // `generate_recommendations`, without the text formatting.

  datatype Advice =
    | Headline(level: string, score: real, severe: bool)
    | Contributor(rank: nat, name: Json, weight: real, contribution: real)
    | MeasuresHeader
    | ImproveHighContributors
    | ReduceRiskValues
    | AddPreventiveControls

  function IsSevere(level: string): bool { level == "High" || level == "Extreme" }

  function ContributorLines(items: seq<IndicatorResult>): seq<Advice>
  {
    seq(|items|, i requires 0 <= i < |items| =>
      Contributor(i + 1, items[i].indicatorName, items[i].correctedWeight, items[i].contribution))
  }

  function Recommendations(d: AhpResult): seq<Advice>
  {
    [Headline(d.riskLevel, d.totalScore, IsSevere(d.riskLevel))]
      + ContributorLines(PyPrefix(d.topContributors, 5))
      + if IsSevere(d.riskLevel) then [MeasuresHeader, ImproveHighContributors, ReduceRiskValues, AddPreventiveControls]
        else []
  }

  /** `AHPImprovedModel.generate_recommendations`. */
  method GenerateRecommendations(d: AhpResult) returns (out: seq<Advice>)
    ensures out == Recommendations(d)
  {
    var severe := d.riskLevel in ["High", "Extreme"];
    out := [Headline(d.riskLevel, d.totalScore, severe)];
    var head := PyPrefix(d.topContributors, 5);
    var lines: seq<Advice> := [];
    var i := 0;
    while i < |head|
      invariant 0 <= i <= |head|
      invariant lines == ContributorLines(head[..i])
    {
      lines := lines + [Contributor(i + 1, head[i].indicatorName, head[i].correctedWeight, head[i].contribution)];
      i := i + 1;
    }
    assert head[..i] == head;
    out := out + lines;
    if severe {
      out := out + [MeasuresHeader, ImproveHighContributors, ReduceRiskValues, AddPreventiveControls];
    }
  }

  /**
   * One headline, then the first five contributors numbered from 1, then four measures
   * exactly when the level is High or Extreme.
   */
  lemma RecommendationsFacts(d: AhpResult)
    ensures var out := Recommendations(d);
      var n := MinInt(5, |d.topContributors|);
      && |out| == 1 + n + (if IsSevere(d.riskLevel) then 4 else 0)
      && out[0] == Headline(d.riskLevel, d.totalScore, IsSevere(d.riskLevel))
      && (MeasuresHeader in out <==> IsSevere(d.riskLevel))
      && (forall j :: 0 <= j < n ==>
            out[j + 1] == Contributor(j + 1, d.topContributors[j].indicatorName,
                                      d.topContributors[j].correctedWeight, d.topContributors[j].contribution))
  {
    var out := Recommendations(d);
    var ls := ContributorLines(PyPrefix(d.topContributors, 5));
    if !IsSevere(d.riskLevel) {
      assert forall a :: a in out ==> a == out[0] || a in ls;
    } else {
      assert out[|out| - 4] == MeasuresHeader;
    }
  }
}
