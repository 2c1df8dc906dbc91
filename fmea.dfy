// The FMEA model (app/models/fmea.py): RPN = S x O x D per failure mode, the RPN level
// scale, level counts, total and mean RPN, a stable Top-N and the recommendation lines.
module Fmea {
  import opened Common
  import opened ModelBase
  import opened RiskTypes
  import opened Records

  const Schema: seq<ParamSpec> :=
    [ParamSpec("top_n", "Top-N条目数", IntParam, PInt(10), "展示前N个高RPN条目", Some(1.0), Some(50.0), [])]

  const Info: ModelInfo := ModelInfo("fmea", "FMEA分析",
    "失效模式与影响分析，计算RPN=S×O×D，适用于识别产品/系统潜在失效模式", "风险评估", Schema)

  /** `get_rpn_level`. */
  function RpnLevelOf(rpn: int): (name: string)
    ensures name == "Low" <==> rpn <= 100
    ensures name == "Extreme" <==> rpn >= 601
  {
    LevelName(FromRpn(rpn))
  }

  function ScoreItem(x: FmeaItem): FmeaItemResult
  {
    var rpn := x.s * x.o * x.d;
    FmeaItemResult(x.id, x.system, x.failureMode, x.effect, x.cause, x.control, x.s, x.o, x.d, rpn, FromRpn(rpn))
  }

  function Scored(items: seq<FmeaItem>): seq<FmeaItemResult>
  {
    seq(|items|, i requires 0 <= i < |items| => ScoreItem(items[i]))
  }

  function ByRpn(x: FmeaItemResult): real { x.rpn as real }
  function RpnOf(x: FmeaItemResult): int { x.rpn }
  function LevelsOf(rs: seq<FmeaItemResult>): seq<RiskLevel>
  {
    seq(|rs|, i requires 0 <= i < |rs| => rs[i].level)
  }

  const EmptyResult: FmeaResult := FmeaResult([], [], 0, 0.0, NoLevels)

  /** What `run` returns, as a function of the mission id, the params and the mission's items. */
  function Assess(missionId: Option<int>, params: map<string, ParamValue>, items: seq<FmeaItem>): RunResult<FmeaResult>
  {
    if missionId.None? then Failure(MissingMissionId)
    else if items == [] then Success(EmptyResult)
    else
      var rs := Scored(items);
      var stop := SliceStopParam(params, "top_n", 10);
      if stop.None? then Failure(EvaluationFailed)
      else
        var total := SumBy(rs, RpnOf);
        Success(FmeaResult(rs, PySlice(SortDesc(rs, ByRpn), stop.value), total,
          total as real / |rs| as real, TallyLevels(LevelsOf(rs))))
  }

  /** `FMEAModel.run` (the average is kept unrounded). */
  method Run(missionId: Option<int>, params: map<string, ParamValue>, items: seq<FmeaItem>)
    returns (r: RunResult<FmeaResult>)
    ensures r == Assess(missionId, params, items)
  {
    if missionId.None? {
      return Failure(MissingMissionId);
    }
    var stop := SliceStopParam(params, "top_n", 10);
    if items == [] {
      return Success(EmptyResult);
    }
    var results := ScoreAll(items);
    var sorted := SortDesc(results, ByRpn);
    if stop.None? {
      return Failure(EvaluationFailed);
    }
    var top := PySlice(sorted, stop.value);
    var counts := CountLevels(results);
    var total := TotalRpn(results);
    return Success(FmeaResult(results, top, total, total as real / |results| as real, counts));
  }

  /** The scoring loop: one result per item, in item order. */
  method ScoreAll(items: seq<FmeaItem>) returns (results: seq<FmeaItemResult>)
    ensures results == Scored(items)
  {
    results := [];
    var k := 0;
    while k < |items|
      invariant 0 <= k <= |items|
      invariant results == Scored(items[..k])
    {
      var x := items[k];
      var rpn := x.s * x.o * x.d;
      results := results + [FmeaItemResult(x.id, x.system, x.failureMode, x.effect, x.cause, x.control,
                                           x.s, x.o, x.d, rpn, FromRpn(rpn))];
      k := k + 1;
    }
    assert items[..k] == items;
  }

  method CountLevels(results: seq<FmeaItemResult>) returns (counts: LevelCounts)
    ensures counts == TallyLevels(LevelsOf(results))
  {
    counts := NoLevels;
    var k := 0;
    while k < |results|
      invariant 0 <= k <= |results|
      invariant counts == TallyLevels(LevelsOf(results[..k]))
    {
      assert LevelsOf(results[..k + 1])[..k] == LevelsOf(results[..k]);
      counts := Bump(counts, results[k].level);
      k := k + 1;
    }
    assert results[..k] == results;
  }

  method TotalRpn(results: seq<FmeaItemResult>) returns (total: int)
    ensures total == SumBy(results, RpnOf)
  {
    total := 0;
    var k := 0;
    while k < |results|
      invariant 0 <= k <= |results|
      invariant total == SumBy(results[..k], RpnOf)
    {
      assert results[..k + 1][..k] == results[..k];
      total := total + results[k].rpn;
      k := k + 1;
    }
    assert results[..k] == results;
  }

  /** `mission_id` None fails; no items gives zero totals and counts; otherwise only a bad `top_n` fails. */
  lemma AssessCases(missionId: Option<int>, params: map<string, ParamValue>, items: seq<FmeaItem>)
    ensures missionId.None? ==> Assess(missionId, params, items) == Failure(MissingMissionId)
    ensures missionId.Some? && items == [] ==>
      && Assess(missionId, params, items).Success?
      && var d := Assess(missionId, params, items).data;
      && d.items == [] && d.topN == [] && d.totalRpn == 0 && TotalCount(d.levelCounts) == 0
    ensures missionId.Some? && items != [] ==>
      (Assess(missionId, params, items).Failure? <==> SliceStopParam(params, "top_n", 10).None?)
  {
  }

  /** A successful run scores each item as S x O x D with its level, in item order. */
  lemma AssessScores(missionId: Option<int>, params: map<string, ParamValue>, items: seq<FmeaItem>)
    requires Assess(missionId, params, items).Success?
    ensures var d := Assess(missionId, params, items).data;
      && |d.items| == |items|
      && forall k :: 0 <= k < |items| ==>
            d.items[k].id == items[k].id
            && d.items[k].rpn == items[k].s * items[k].o * items[k].d
            && d.items[k].level == FromRpn(items[k].s * items[k].o * items[k].d)
  {
  }

  /** A successful run counts every item once by level and totals the RPNs. */
  lemma AssessTotals(missionId: Option<int>, params: map<string, ParamValue>, items: seq<FmeaItem>)
    requires Assess(missionId, params, items).Success? && items != []
    ensures var d := Assess(missionId, params, items).data;
      && TotalCount(d.levelCounts) == |items|
      && (forall l :: CountOf(d.levelCounts, l) == CountBy(LevelsOf(d.items), (m: RiskLevel) => m == l))
      && d.totalRpn == SumBy(d.items, RpnOf)
  {
    var rs := Scored(items);
    var d := Assess(missionId, params, items).data;
    assert d.items == rs && d.levelCounts == TallyLevels(LevelsOf(rs));
    TallyLevelsMeaning(LevelsOf(rs));
  }

  /** The mean RPN times the number of items is the total RPN. */
  lemma AssessMean(missionId: Option<int>, params: map<string, ParamValue>, items: seq<FmeaItem>)
    requires Assess(missionId, params, items).Success? && items != []
    ensures Assess(missionId, params, items).data.avgRpn * |items| as real
         == Assess(missionId, params, items).data.totalRpn as real
  {
    var d := Assess(missionId, params, items).data;
    var n := |items| as real;
    var x := d.totalRpn as real;
    assert |Scored(items)| == |items|;
    assert d.avgRpn == x / n;
    assert d.avgRpn * n == x;
  }

  /** Top-N is a prefix of the stable descending sort by RPN, of length `min(top_n, n)`. */
  lemma AssessTop(missionId: Option<int>, params: map<string, ParamValue>, items: seq<FmeaItem>)
    requires Assess(missionId, params, items).Success? && items != []
    ensures var d := Assess(missionId, params, items).data;
      var sorted := SortDesc(d.items, ByRpn);
      && SortedDesc(sorted, ByRpn) && multiset(sorted) == multiset(d.items)
      && (forall v :: KeyFilter(sorted, ByRpn, v) == KeyFilter(d.items, ByRpn, v))
      && d.topN == sorted[..|d.topN|]
      && var stop := SliceStopParam(params, "top_n", 10).value;
      (stop.StopAt? && stop.k >= 0 ==> |d.topN| == MinInt(stop.k, |items|))
  {
    var d := Assess(missionId, params, items).data;
    SortDescFacts(d.items, ByRpn);
    forall v ensures KeyFilter(SortDesc(d.items, ByRpn), ByRpn, v) == KeyFilter(d.items, ByRpn, v) {
      SortDescStable(d.items, ByRpn, v);
    }
  }

  // ---------------------------------------------------------------------------
  // `generate_recommendations`, line by line (the wording of each line is fixed text).

  datatype Advice =
    | Summary(level: RiskLevel, count: nat)      // "there are N extreme/high RPN items"
    | Measure(level: RiskLevel, index: nat)      // one of the three fixed bullet lines of that level
    | Example(level: RiskLevel, failureMode: string, system: string, rpn: int, s: int, o: int, d: int)
    | HighOHeader                                // "these items have a high occurrence"
    | OExample(failureMode: string, o: int)
    | HighDHeader                                // "these items have a high detection rating"
    | DExample(failureMode: string, d: int)
    | GoodState(index: nat)                      // the two "no extreme or high RPN" lines

  function HasLevel(l: RiskLevel): FmeaItemResult -> bool
  {
    (x: FmeaItemResult) => x.level == l
  }

  function HighO(x: FmeaItemResult): bool { x.o >= 7 }
  function HighD(x: FmeaItemResult): bool { x.d >= 7 }

  function IsExample(l: RiskLevel): Advice -> bool
  {
    (a: Advice) => a.Example? && a.level == l
  }

  function IsOExample(a: Advice): bool { a.OExample? }
  function IsDExample(a: Advice): bool { a.DExample? }

  function ExampleOf(l: RiskLevel, x: FmeaItemResult): Advice
  {
    Example(l, x.failureMode, x.system, x.rpn, x.s, x.o, x.d)
  }

  function Examples(l: RiskLevel, xs: seq<FmeaItemResult>): seq<Advice>
  {
    if xs == [] then [] else Examples(l, xs[..|xs| - 1]) + [ExampleOf(l, xs[|xs| - 1])]
  }

  function Block(l: RiskLevel, xs: seq<FmeaItemResult>): seq<Advice>
  {
    if xs == [] then []
    else [Summary(l, |xs|), Measure(l, 0), Measure(l, 1), Measure(l, 2)] + Examples(l, xs[..MinInt(3, |xs|)])
  }

  function OLines(xs: seq<FmeaItemResult>): seq<Advice>
  {
    if xs == [] then [] else OLines(xs[..|xs| - 1]) + [OExample(xs[|xs| - 1].failureMode, xs[|xs| - 1].o)]
  }

  function DLines(xs: seq<FmeaItemResult>): seq<Advice>
  {
    if xs == [] then [] else DLines(xs[..|xs| - 1]) + [DExample(xs[|xs| - 1].failureMode, xs[|xs| - 1].d)]
  }

  function OBlock(top: seq<FmeaItemResult>): seq<Advice>
  {
    var hs := Filter(top, HighO);
    if hs == [] then [] else [HighOHeader] + OLines(hs[..MinInt(2, |hs|)])
  }

  function DBlock(top: seq<FmeaItemResult>): seq<Advice>
  {
    var hs := Filter(top, HighD);
    if hs == [] then [] else [HighDHeader] + DLines(hs[..MinInt(2, |hs|)])
  }

  function GoodLines(r: FmeaResult): seq<Advice>
  {
    if Filter(r.items, HasLevel(Extreme)) == [] && Filter(r.items, HasLevel(High)) == []
    then [GoodState(0), GoodState(1)] else []
  }

  function Recommendations(r: FmeaResult): seq<Advice>
  {
    Block(Extreme, Filter(r.items, HasLevel(Extreme))) + Block(High, Filter(r.items, HasLevel(High)))
      + OBlock(r.topN) + DBlock(r.topN) + GoodLines(r)
  }

  lemma {:induction false} ExamplesFacts(l: RiskLevel, xs: seq<FmeaItemResult>)
    ensures |Examples(l, xs)| == |xs|
    ensures forall k :: 0 <= k < |xs| ==> Examples(l, xs)[k] == ExampleOf(l, xs[k])
    decreases |xs|
  {
    if xs != [] {
      var n := |xs| - 1;
      ExamplesFacts(l, xs[..n]);
    }
  }

  lemma {:induction false} OLinesFacts(xs: seq<FmeaItemResult>)
    ensures |OLines(xs)| == |xs|
    ensures forall k :: 0 <= k < |xs| ==> OLines(xs)[k] == OExample(xs[k].failureMode, xs[k].o)
    decreases |xs|
  {
    if xs != [] {
      OLinesFacts(xs[..|xs| - 1]);
    }
  }

  lemma {:induction false} DLinesFacts(xs: seq<FmeaItemResult>)
    ensures |DLines(xs)| == |xs|
    ensures forall k :: 0 <= k < |xs| ==> DLines(xs)[k] == DExample(xs[k].failureMode, xs[k].d)
    decreases |xs|
  {
    if xs != [] {
      DLinesFacts(xs[..|xs| - 1]);
    }
  }

  /** Counts `p` over a sequence once every element is known to satisfy it or not. */
  lemma CountAll<T>(s: seq<T>, p: T -> bool)
    requires forall k :: 0 <= k < |s| ==> p(s[k])
    ensures CountBy(s, p) == |s|
  {
    if s != [] {
      var n := |s| - 1;
      assert forall k :: 0 <= k < n ==> s[..n][k] == s[k];
      CountAll(s[..n], p);
    }
  }

  /** The level block lists `min(3, count)` examples of its level and none of another. */
  lemma BlockCounts(l: RiskLevel, xs: seq<FmeaItemResult>, m: RiskLevel)
    ensures CountBy(Block(l, xs), IsExample(m)) == if l == m then MinInt(3, |xs|) else 0
  {
    if xs != [] {
      var head := [Summary(l, |xs|), Measure(l, 0), Measure(l, 1), Measure(l, 2)];
      var ex := Examples(l, xs[..MinInt(3, |xs|)]);
      ExamplesFacts(l, xs[..MinInt(3, |xs|)]);
      CountByConcat(head, ex, IsExample(m));
      CountByZero(head, IsExample(m));
      if l == m {
        CountAll(ex, IsExample(m));
      } else {
        CountByZero(ex, IsExample(m));
      }
    }
  }

  /** The level block holds only its summary, measures and examples. */
  lemma BlockKinds(l: RiskLevel, xs: seq<FmeaItemResult>)
    ensures forall k :: 0 <= k < |Block(l, xs)| ==> Block(l, xs)[k].Summary? || Block(l, xs)[k].Measure? || Block(l, xs)[k].Example?
    ensures CountBy(Block(l, xs), IsOExample) == 0 && CountBy(Block(l, xs), IsDExample) == 0
  {
    if xs != [] {
      ExamplesFacts(l, xs[..MinInt(3, |xs|)]);
    }
    CountByZero(Block(l, xs), IsOExample);
    CountByZero(Block(l, xs), IsDExample);
  }

  lemma OBlockCounts(top: seq<FmeaItemResult>, m: RiskLevel)
    ensures CountBy(OBlock(top), IsOExample) == MinInt(2, CountBy(top, HighO))
    ensures CountBy(OBlock(top), IsExample(m)) == 0 && CountBy(OBlock(top), IsDExample) == 0
    ensures forall k :: 0 <= k < |OBlock(top)| ==> !OBlock(top)[k].GoodState?
  {
    OBlockOwn(top);
    OBlockOthers(top, m);
  }

  lemma OBlockOwn(top: seq<FmeaItemResult>)
    ensures CountBy(OBlock(top), IsOExample) == MinInt(2, CountBy(top, HighO))
  {
    var hs := Filter(top, HighO);
    FilterCount(top, HighO);
    if hs != [] {
      var ls := OLines(hs[..MinInt(2, |hs|)]);
      OLinesFacts(hs[..MinInt(2, |hs|)]);
      CountByConcat([HighOHeader], ls, IsOExample);
      CountByZero([HighOHeader], IsOExample);
      CountAll(ls, IsOExample);
    }
  }

  lemma OBlockOthers(top: seq<FmeaItemResult>, m: RiskLevel)
    ensures CountBy(OBlock(top), IsExample(m)) == 0 && CountBy(OBlock(top), IsDExample) == 0
    ensures forall k :: 0 <= k < |OBlock(top)| ==> !OBlock(top)[k].GoodState?
  {
    var hs := Filter(top, HighO);
    if hs != [] {
      OLinesFacts(hs[..MinInt(2, |hs|)]);
    }
    CountByZero(OBlock(top), IsExample(m));
    CountByZero(OBlock(top), IsDExample);
  }


  lemma DBlockCounts(top: seq<FmeaItemResult>, m: RiskLevel)
    ensures CountBy(DBlock(top), IsDExample) == MinInt(2, CountBy(top, HighD))
    ensures CountBy(DBlock(top), IsExample(m)) == 0 && CountBy(DBlock(top), IsOExample) == 0
    ensures forall k :: 0 <= k < |DBlock(top)| ==> !DBlock(top)[k].GoodState?
  {
    DBlockOwn(top);
    DBlockOthers(top, m);
  }

  lemma DBlockOwn(top: seq<FmeaItemResult>)
    ensures CountBy(DBlock(top), IsDExample) == MinInt(2, CountBy(top, HighD))
  {
    var hs := Filter(top, HighD);
    FilterCount(top, HighD);
    if hs != [] {
      var ls := DLines(hs[..MinInt(2, |hs|)]);
      DLinesFacts(hs[..MinInt(2, |hs|)]);
      CountByConcat([HighDHeader], ls, IsDExample);
      CountByZero([HighDHeader], IsDExample);
      CountAll(ls, IsDExample);
    }
  }

  lemma DBlockOthers(top: seq<FmeaItemResult>, m: RiskLevel)
    ensures CountBy(DBlock(top), IsExample(m)) == 0 && CountBy(DBlock(top), IsOExample) == 0
    ensures forall k :: 0 <= k < |DBlock(top)| ==> !DBlock(top)[k].GoodState?
  {
    var hs := Filter(top, HighD);
    if hs != [] {
      DLinesFacts(hs[..MinInt(2, |hs|)]);
    }
    CountByZero(DBlock(top), IsExample(m));
    CountByZero(DBlock(top), IsOExample);
  }


  /** At most three examples are listed for each of Extreme and High. */
  lemma RecommendationsExampleCount(r: FmeaResult, m: RiskLevel)
    requires m == Extreme || m == High
    ensures CountBy(Recommendations(r), IsExample(m)) == MinInt(3, CountBy(r.items, HasLevel(m)))
  {
    var b1 := Block(Extreme, Filter(r.items, HasLevel(Extreme)));
    var b2 := Block(High, Filter(r.items, HasLevel(High)));
    var o := OBlock(r.topN);
    var d := DBlock(r.topN);
    var g := GoodLines(r);
    FilterCount(r.items, HasLevel(m));
    BlockCounts(Extreme, Filter(r.items, HasLevel(Extreme)), m);
    BlockCounts(High, Filter(r.items, HasLevel(High)), m);
    OBlockCounts(r.topN, m);
    DBlockCounts(r.topN, m);
    CountByZero(g, IsExample(m));
    CountByConcat(b1, b2, IsExample(m));
    CountByConcat(b1 + b2, o, IsExample(m));
    CountByConcat(b1 + b2 + o, d, IsExample(m));
    CountByConcat(b1 + b2 + o + d, g, IsExample(m));
  }

  /**
   * At most two items each are listed for high occurrence and for high detection,
   * and they are drawn from Top-N only.
   */
  lemma RecommendationsODCount(r: FmeaResult)
    ensures CountBy(Recommendations(r), IsOExample) == MinInt(2, CountBy(r.topN, HighO))
    ensures CountBy(Recommendations(r), IsDExample) == MinInt(2, CountBy(r.topN, HighD))
  {
    var b1 := Block(Extreme, Filter(r.items, HasLevel(Extreme)));
    var b2 := Block(High, Filter(r.items, HasLevel(High)));
    var o := OBlock(r.topN);
    var d := DBlock(r.topN);
    var g := GoodLines(r);
    BlockKinds(Extreme, Filter(r.items, HasLevel(Extreme)));
    BlockKinds(High, Filter(r.items, HasLevel(High)));
    OBlockCounts(r.topN, Extreme);
    DBlockCounts(r.topN, Extreme);
    CountByZero(g, IsOExample);
    CountByZero(g, IsDExample);
    CountByConcat(b1, b2, IsOExample);
    CountByConcat(b1 + b2, o, IsOExample);
    CountByConcat(b1 + b2 + o, d, IsOExample);
    CountByConcat(b1 + b2 + o + d, g, IsOExample);
    CountByConcat(b1, b2, IsDExample);
    CountByConcat(b1 + b2, o, IsDExample);
    CountByConcat(b1 + b2 + o, d, IsDExample);
    CountByConcat(b1 + b2 + o + d, g, IsDExample);
  }

  /** The good-state lines appear exactly when no item is Extreme or High. */
  lemma RecommendationsGoodState(r: FmeaResult)
    ensures (exists k :: 0 <= k < |Recommendations(r)| && Recommendations(r)[k].GoodState?) <==>
      forall k :: 0 <= k < |r.items| ==> r.items[k].level != Extreme && r.items[k].level != High
  {
    var rec := Recommendations(r);
    var pre := Block(Extreme, Filter(r.items, HasLevel(Extreme))) + Block(High, Filter(r.items, HasLevel(High)))
      + OBlock(r.topN) + DBlock(r.topN);
    assert rec == pre + GoodLines(r);
    BlocksHaveNoGoodState(r);
    if forall k :: 0 <= k < |r.items| ==> r.items[k].level != Extreme && r.items[k].level != High {
      assert Filter(r.items, HasLevel(Extreme)) == [] && Filter(r.items, HasLevel(High)) == [];
      assert rec[|pre|].GoodState?;
    } else {
      var k :| 0 <= k < |r.items| && (r.items[k].level == Extreme || r.items[k].level == High);
      assert r.items[k] in Filter(r.items, HasLevel(Extreme)) || r.items[k] in Filter(r.items, HasLevel(High));
      assert GoodLines(r) == [];
      assert rec == pre;
    }
  }

  predicate NoGoodState(s: seq<Advice>)
  {
    forall k :: 0 <= k < |s| ==> !s[k].GoodState?
  }

  lemma NoGoodStateConcat(a: seq<Advice>, b: seq<Advice>)
    requires NoGoodState(a) && NoGoodState(b)
    ensures NoGoodState(a + b)
  {
    forall k | 0 <= k < |a + b| ensures !(a + b)[k].GoodState? {
      if k >= |a| {
        assert (a + b)[k] == b[k - |a|];
      }
    }
  }

  /** No line before the closing lines is a "no extreme or high RPN" line. */
  lemma BlocksHaveNoGoodState(r: FmeaResult)
    ensures NoGoodState(Block(Extreme, Filter(r.items, HasLevel(Extreme))) + Block(High, Filter(r.items, HasLevel(High)))
      + OBlock(r.topN) + DBlock(r.topN))
  {
    var b1 := Block(Extreme, Filter(r.items, HasLevel(Extreme)));
    var b2 := Block(High, Filter(r.items, HasLevel(High)));
    var o := OBlock(r.topN);
    var d := DBlock(r.topN);
    BlockKinds(Extreme, Filter(r.items, HasLevel(Extreme)));
    BlockKinds(High, Filter(r.items, HasLevel(High)));
    OBlockOthers(r.topN, Extreme);
    DBlockOthers(r.topN, Extreme);
    NoGoodStateConcat(b1, b2);
    NoGoodStateConcat(b1 + b2, o);
    NoGoodStateConcat(b1 + b2 + o, d);
  }
}
