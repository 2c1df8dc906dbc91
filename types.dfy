// Shared result structures (app/models/types.py): the two four-level scales, the
// result records of the scoring models and the JSON-shaped dictionaries their
// `to_dict` methods produce.
module RiskTypes {
  import opened Common

  // ---------------------------------------------------------------------------
  // The two four-level scales. Both use the names Low/Medium/High/Extreme.

  datatype RiskLevel = Low | Medium | High | Extreme

  function LevelName(l: RiskLevel): string
  {
    match l
    case Low => "Low"
    case Medium => "Medium"
    case High => "High"
    case Extreme => "Extreme"
  }

  function Rank(l: RiskLevel): nat
  {
    match l
    case Low => 0
    case Medium => 1
    case High => 2
    case Extreme => 3
  }

  /** `RiskLevel.from_score`: 1-4 Low, 5-9 Medium, 10-16 High, 17 and above Extreme. */
  function FromScore(r: int): (l: RiskLevel)
    ensures l == Low <==> r <= 4
    ensures l == Medium <==> 5 <= r <= 9
    ensures l == High <==> 10 <= r <= 16
    ensures l == Extreme <==> 17 <= r
  {
    if r <= 4 then Low else if r <= 9 then Medium else if r <= 16 then High else Extreme
  }

  /** `FMEARiskLevel.from_rpn`: up to 100 Low, 101-300 Medium, 301-600 High, above Extreme. */
  function FromRpn(rpn: int): (l: RiskLevel)
    ensures l == Low <==> rpn <= 100
    ensures l == Medium <==> 101 <= rpn <= 300
    ensures l == High <==> 301 <= rpn <= 600
    ensures l == Extreme <==> 601 <= rpn
  {
    if rpn <= 100 then Low else if rpn <= 300 then Medium else if rpn <= 600 then High else Extreme
  }

  lemma FromScoreBoundaries()
    ensures FromScore(4) == Low && FromScore(5) == Medium && FromScore(9) == Medium
    ensures FromScore(10) == High && FromScore(16) == High && FromScore(17) == Extreme
  {
  }

  lemma FromScoreMonotone(r1: int, r2: int)
    requires r1 <= r2
    ensures Rank(FromScore(r1)) <= Rank(FromScore(r2))
  {
  }

  lemma FromRpnBoundaries()
    ensures FromRpn(100) == Low && FromRpn(101) == Medium && FromRpn(300) == Medium
    ensures FromRpn(301) == High && FromRpn(600) == High && FromRpn(601) == Extreme
  {
  }

  lemma FromRpnMonotone(p1: int, p2: int)
    requires p1 <= p2
    ensures Rank(FromRpn(p1)) <= Rank(FromRpn(p2))
  {
  }

  // ---------------------------------------------------------------------------
  // Level counts: the `{"Low": .., "Medium": .., "High": .., "Extreme": ..}` dicts.

  datatype LevelCounts = LevelCounts(low: nat, medium: nat, high: nat, extreme: nat)

  const NoLevels := LevelCounts(0, 0, 0, 0)

  function CountOf(c: LevelCounts, l: RiskLevel): nat
  {
    match l
    case Low => c.low
    case Medium => c.medium
    case High => c.high
    case Extreme => c.extreme
  }

  /** `level_counts[level] += 1`. */
  function Bump(c: LevelCounts, l: RiskLevel): (r: LevelCounts)
    ensures CountOf(r, l) == CountOf(c, l) + 1
    ensures forall m :: m != l ==> CountOf(r, m) == CountOf(c, m)
  {
    match l
    case Low => c.(low := c.low + 1)
    case Medium => c.(medium := c.medium + 1)
    case High => c.(high := c.high + 1)
    case Extreme => c.(extreme := c.extreme + 1)
  }

  function TotalCount(c: LevelCounts): nat
  {
    c.low + c.medium + c.high + c.extreme
  }

  /** The counts of a list of levels, one `Bump` per element in order. */
  function TallyLevels(ls: seq<RiskLevel>): (c: LevelCounts)
  {
    if ls == [] then NoLevels else Bump(TallyLevels(ls[..|ls| - 1]), ls[|ls| - 1])
  }

  /** Each count is the number of elements with that level, so the counts sum to the length. */
  lemma TallyLevelsMeaning(ls: seq<RiskLevel>)
    ensures forall l :: CountOf(TallyLevels(ls), l) == CountBy(ls, (m: RiskLevel) => m == l)
    ensures TotalCount(TallyLevels(ls)) == |ls|
  {
    forall l ensures CountOf(TallyLevels(ls), l) == CountBy(ls, (m: RiskLevel) => m == l) {
      TallyLevelCount(ls, l);
    }
    TallyTotal(ls);
  }

  lemma {:induction false} TallyLevelCount(ls: seq<RiskLevel>, l: RiskLevel)
    ensures CountOf(TallyLevels(ls), l) == CountBy(ls, (m: RiskLevel) => m == l)
    decreases |ls|
  {
    if ls != [] {
      var n := |ls| - 1;
      TallyLevelCount(ls[..n], l);
      CountByAppend(ls[..n], ls[n], (m: RiskLevel) => m == l);
      assert ls[..n] + [ls[n]] == ls;
    }
  }

  lemma {:induction false} TallyTotal(ls: seq<RiskLevel>)
    ensures TotalCount(TallyLevels(ls)) == |ls|
    decreases |ls|
  {
    if ls != [] {
      TallyTotal(ls[..|ls| - 1]);
    }
  }

  function LevelCountsJson(c: LevelCounts): Json
  {
    JObj([("Low", JInt(c.low)), ("Medium", JInt(c.medium)), ("High", JInt(c.high)), ("Extreme", JInt(c.extreme))])
  }

  // ---------------------------------------------------------------------------
  // Risk matrix results.

  datatype EventResult = EventResult(
    id: int,
    name: string,
    likelihood: int,
    severity: int,
    riskScore: int,
    level: RiskLevel,
    hazardType: string,
    desc: string)

  /** One `matrix_events` entry: the key `"L_S"` and the ids filed under it, in insertion order. */
  datatype CellEvents = CellEvents(likelihood: int, severity: int, ids: seq<int>)

  datatype RiskMatrixResult = RiskMatrixResult(
    events: seq<EventResult>,
    topN: seq<EventResult>,
    matrixData: seq<seq<int>>,
    matrixEvents: seq<CellEvents>,
    totalRisk: int,
    avgRisk: real,
    levelCounts: LevelCounts)

  const EventKeys: seq<string> :=
    ["id", "name", "likelihood", "severity", "risk_score", "level", "hazard_type", "desc"]
  const EventTopKeys: seq<string> := ["id", "name", "likelihood", "severity", "risk_score", "level"]
  const RiskMatrixKeys: seq<string> :=
    ["events", "top_n", "matrix_data", "matrix_events", "total_risk", "avg_risk", "level_counts"]

  function EventJson(e: EventResult, full: bool): Json
  {
    var common := [("id", JInt(e.id)), ("name", JStr(e.name)), ("likelihood", JInt(e.likelihood)),
                   ("severity", JInt(e.severity)), ("risk_score", JInt(e.riskScore)),
                   ("level", JStr(LevelName(e.level)))];
    if full then JObj(common + [("hazard_type", JStr(e.hazardType)), ("desc", JStr(e.desc))])
    else JObj(common)
  }

  function CellKey(l: int, s: int): string
  {
    IntToString(l) + "_" + IntToString(s)
  }

  function MatrixJson(m: seq<seq<int>>): Json
  {
    JArr(seq(|m|, i requires 0 <= i < |m| => IntArray(m[i])))
  }

  function CellEventsJson(cells: seq<CellEvents>): Json
  {
    JObj(seq(|cells|, i requires 0 <= i < |cells| =>
      (CellKey(cells[i].likelihood, cells[i].severity), IntArray(cells[i].ids))))
  }

  /** `RiskMatrixResult.to_dict`: events and top_n keep their count and order. */
  function RiskMatrixToDict(r: RiskMatrixResult): Json
  {
    JObj([
      ("events", JArr(seq(|r.events|, i requires 0 <= i < |r.events| => EventJson(r.events[i], true)))),
      ("top_n", JArr(seq(|r.topN|, i requires 0 <= i < |r.topN| => EventJson(r.topN[i], false)))),
      ("matrix_data", MatrixJson(r.matrixData)),
      ("matrix_events", CellEventsJson(r.matrixEvents)),
      ("total_risk", JInt(r.totalRisk)),
      ("avg_risk", JReal(r.avgRisk)),
      ("level_counts", LevelCountsJson(r.levelCounts))])
  }

  // ---------------------------------------------------------------------------
  // FMEA results.

  datatype FmeaItemResult = FmeaItemResult(
    id: int,
    system: string,
    failureMode: string,
    effect: string,
    cause: string,
    control: string,
    s: int,
    o: int,
    d: int,
    rpn: int,
    level: RiskLevel)

  datatype FmeaResult = FmeaResult(
    items: seq<FmeaItemResult>,
    topN: seq<FmeaItemResult>,
    totalRpn: int,
    avgRpn: real,
    levelCounts: LevelCounts)

  const FmeaItemKeys: seq<string> :=
    ["id", "system", "failure_mode", "effect", "cause", "control", "S", "O", "D", "RPN", "level"]
  const FmeaTopKeys: seq<string> := ["id", "system", "failure_mode", "S", "O", "D", "RPN", "level"]
  const FmeaKeys: seq<string> := ["items", "top_n", "total_rpn", "avg_rpn", "level_counts"]

  function FmeaItemJson(x: FmeaItemResult, full: bool): Json
  {
    if full then
      JObj([("id", JInt(x.id)), ("system", JStr(x.system)), ("failure_mode", JStr(x.failureMode)),
            ("effect", JStr(x.effect)), ("cause", JStr(x.cause)), ("control", JStr(x.control)),
            ("S", JInt(x.s)), ("O", JInt(x.o)), ("D", JInt(x.d)), ("RPN", JInt(x.rpn)),
            ("level", JStr(LevelName(x.level)))])
    else
      JObj([("id", JInt(x.id)), ("system", JStr(x.system)), ("failure_mode", JStr(x.failureMode)),
            ("S", JInt(x.s)), ("O", JInt(x.o)), ("D", JInt(x.d)), ("RPN", JInt(x.rpn)),
            ("level", JStr(LevelName(x.level)))])
  }

  /** `FMEAResult.to_dict`: items and top_n keep their count and order. */
  function FmeaToDict(r: FmeaResult): Json
  {
    JObj([
      ("items", JArr(seq(|r.items|, i requires 0 <= i < |r.items| => FmeaItemJson(r.items[i], true)))),
      ("top_n", JArr(seq(|r.topN|, i requires 0 <= i < |r.topN| => FmeaItemJson(r.topN[i], false)))),
      ("total_rpn", JInt(r.totalRpn)),
      ("avg_rpn", JReal(r.avgRpn)),
      ("level_counts", LevelCountsJson(r.levelCounts))])
  }

  // ---------------------------------------------------------------------------
  // Sensitivity results. The source stores the integer totals as floats; they are
  // exact, so the model keeps them as integers.

  datatype SensitivityFactor = SensitivityFactor(
    factorName: string,
    baseValue: int,
    minusValue: int,
    plusValue: int,
    impactScore: int,
    eventId: int,
    paramType: string)

  datatype SensitivityResult = SensitivityResult(
    modelType: string,
    globalIndicator: string,
    baseGlobalValue: int,
    factors: seq<SensitivityFactor>,
    topN: seq<SensitivityFactor>)

  const FactorKeys: seq<string> :=
    ["factor_name", "base_value", "minus_value", "plus_value", "impact_score", "event_id", "param_type"]
  const FactorTopKeys: seq<string> := ["factor_name", "base_value", "minus_value", "plus_value", "impact_score"]

  function FactorJson(f: SensitivityFactor, full: bool): Json
  {
    var common := [("factor_name", JStr(f.factorName)), ("base_value", JReal(f.baseValue as real)),
                   ("minus_value", JReal(f.minusValue as real)), ("plus_value", JReal(f.plusValue as real)),
                   ("impact_score", JReal(f.impactScore as real))];
    if full then JObj(common + [("event_id", JInt(f.eventId)), ("param_type", JStr(f.paramType))])
    else JObj(common)
  }

  /** `SensitivityResult.to_dict`: factors and top_n keep their count and order. */
  function SensitivityToDict(r: SensitivityResult): Json
  {
    JObj([
      ("model_type", JStr(r.modelType)),
      ("global_indicator", JStr(r.globalIndicator)),
      ("base_global_value", JReal(r.baseGlobalValue as real)),
      ("factors", JArr(seq(|r.factors|, i requires 0 <= i < |r.factors| => FactorJson(r.factors[i], true)))),
      ("top_n", JArr(seq(|r.topN|, i requires 0 <= i < |r.topN| => FactorJson(r.topN[i], false))))])
  }

  // ---------------------------------------------------------------------------
  // The Monte Carlo summary records declared in this file (the Monte Carlo model
  // itself uses its own copies; see MonteCarlo).

  datatype McEventStats = McEventStats(
    eventId: int, eventName: string, nominalR: int,
    mean: real, std: real, p50: real, p90: real, p95: real, probHigh: real)

  datatype McGlobalStats = McGlobalStats(
    indicatorName: string, nominalValue: real,
    mean: real, std: real, p50: real, p90: real, p95: real, probHigh: real)

  datatype McSummary = McSummary(
    modelType: string, nSamples: int, eventStats: seq<McEventStats>,
    globalStats: McGlobalStats, histogram: seq<real>)

  function McEventStatsJson(s: McEventStats): Json
  {
    JObj([("event_id", JInt(s.eventId)), ("event_name", JStr(s.eventName)), ("nominal_R", JInt(s.nominalR)),
          ("mean", JReal(s.mean)), ("std", JReal(s.std)), ("p50", JReal(s.p50)), ("p90", JReal(s.p90)),
          ("p95", JReal(s.p95)), ("prob_high", JReal(s.probHigh))])
  }

  function McGlobalStatsJson(g: McGlobalStats): Json
  {
    JObj([("indicator_name", JStr(g.indicatorName)), ("nominal_value", JReal(g.nominalValue)),
          ("mean", JReal(g.mean)), ("std", JReal(g.std)), ("p50", JReal(g.p50)), ("p90", JReal(g.p90)),
          ("p95", JReal(g.p95)), ("prob_high", JReal(g.probHigh))])
  }

  /** `MonteCarloResult.to_dict` of this file: the whole histogram, and event stats in order. */
  function McSummaryToDict(m: McSummary): Json
  {
    JObj([
      ("model_type", JStr(m.modelType)),
      ("n_samples", JInt(m.nSamples)),
      ("event_stats", JArr(seq(|m.eventStats|, i requires 0 <= i < |m.eventStats| => McEventStatsJson(m.eventStats[i])))),
      ("global_stats", McGlobalStatsJson(m.globalStats)),
      ("histogram_data", RealArray(m.histogram))])
  }

  // ---------------------------------------------------------------------------
  // The combined evaluation result.

  datatype EvaluationResult = EvaluationResult(
    missionId: int,
    missionName: string,
    createdAt: string,
    modelSet: seq<string>,
    riskMatrix: Option<RiskMatrixResult>,
    fmea: Option<FmeaResult>,
    monteCarloRm: Option<McSummary>,
    monteCarloFmea: Option<McSummary>,
    sensitivityRm: Option<SensitivityResult>,
    sensitivityFmea: Option<SensitivityResult>,
    ftaResult: Option<seq<(string, Json)>>,
    ahpResult: Option<seq<(string, Json)>>,
    figures: seq<(string, string)>,
    recommendations: seq<string>)

  const EvaluationBaseKeys: seq<string> :=
    ["mission_id", "mission_name", "created_at", "model_set", "figures", "recommendations"]

  /**
   * Python truthiness of each optional section: a dataclass instance is always true,
   * a dict only when it is non-empty.
   */
  predicate SectionPresent(e: EvaluationResult, k: string)
  {
    || (k == "risk_matrix" && e.riskMatrix.Some?)
    || (k == "fmea" && e.fmea.Some?)
    || (k == "monte_carlo_rm" && e.monteCarloRm.Some?)
    || (k == "monte_carlo_fmea" && e.monteCarloFmea.Some?)
    || (k == "sensitivity_rm" && e.sensitivityRm.Some?)
    || (k == "sensitivity_fmea" && e.sensitivityFmea.Some?)
    || (k == "fta_result" && e.ftaResult.Some? && e.ftaResult.value != [])
    || (k == "ahp_result" && e.ahpResult.Some? && e.ahpResult.value != [])
  }

  function Section<T>(k: string, o: Option<T>, toJson: T -> Json): seq<(string, Json)>
  {
    if o.Some? then [(k, toJson(o.value))] else []
  }

  function DictSection(k: string, o: Option<seq<(string, Json)>>): seq<(string, Json)>
  {
    if o.Some? && o.value != [] then [(k, JObj(o.value))] else []
  }

  /** `EvaluationResult.to_dict`: the six base keys first, then each present section once. */
  function EvaluationToDict(e: EvaluationResult): Json
  {
    var base := [("mission_id", JInt(e.missionId)), ("mission_name", JStr(e.missionName)),
                 ("created_at", JStr(e.createdAt)), ("model_set", StrArray(e.modelSet)),
                 ("figures", JObj(seq(|e.figures|, i requires 0 <= i < |e.figures| => (e.figures[i].0, JStr(e.figures[i].1))))),
                 ("recommendations", StrArray(e.recommendations))];
    JObj(base + Sections(e))
  }

  function Sections(e: EvaluationResult): seq<(string, Json)>
  {
    ModelSections(e) + DerivedSections(e)
  }

  function ModelSections(e: EvaluationResult): seq<(string, Json)>
  {
    Section("risk_matrix", e.riskMatrix, RiskMatrixToDict)
      + Section("fmea", e.fmea, FmeaToDict)
      + Section("monte_carlo_rm", e.monteCarloRm, McSummaryToDict)
      + Section("monte_carlo_fmea", e.monteCarloFmea, McSummaryToDict)
  }

  function DerivedSections(e: EvaluationResult): seq<(string, Json)>
  {
    Section("sensitivity_rm", e.sensitivityRm, SensitivityToDict)
      + Section("sensitivity_fmea", e.sensitivityFmea, SensitivityToDict)
      + DictSection("fta_result", e.ftaResult)
      + DictSection("ahp_result", e.ahpResult)
  }

  // ---------------------------------------------------------------------------
  // The shapes of the dictionaries.

  lemma EventJsonShape(e: EventResult, full: bool)
    ensures KeysOf(EventJson(e, full)) == if full then EventKeys else EventTopKeys
    ensures Field(EventJson(e, full), "id") == Some(JInt(e.id))
    ensures Field(EventJson(e, full), "risk_score") == Some(JInt(e.riskScore))
  {
    LookupAt(EventJson(e, full).fields, 4, "risk_score");
  }

  /** `RiskMatrixResult.to_dict` keeps the count and order of `events` and `top_n`. */
  lemma RiskMatrixToDictShape(r: RiskMatrixResult)
    ensures KeysOf(RiskMatrixToDict(r)) == RiskMatrixKeys
    ensures var d := RiskMatrixToDict(r);
      && |Items(d, "events")| == |r.events|
      && forall i :: 0 <= i < |r.events| ==>
           KeysOf(Items(d, "events")[i]) == EventKeys
           && Field(Items(d, "events")[i], "id") == Some(JInt(r.events[i].id))
           && Field(Items(d, "events")[i], "risk_score") == Some(JInt(r.events[i].riskScore))
    ensures var d := RiskMatrixToDict(r);
      && |Items(d, "top_n")| == |r.topN|
      && forall i :: 0 <= i < |r.topN| ==>
           KeysOf(Items(d, "top_n")[i]) == EventTopKeys
           && Field(Items(d, "top_n")[i], "id") == Some(JInt(r.topN[i].id))
           && Field(Items(d, "top_n")[i], "risk_score") == Some(JInt(r.topN[i].riskScore))
    ensures Field(RiskMatrixToDict(r), "total_risk") == Some(JInt(r.totalRisk))
  {
    var d := RiskMatrixToDict(r);
    LookupAt(d.fields, 1, "top_n");
    LookupAt(d.fields, 4, "total_risk");
    forall i | 0 <= i < |r.events|
      ensures KeysOf(Items(d, "events")[i]) == EventKeys
      ensures Field(Items(d, "events")[i], "id") == Some(JInt(r.events[i].id))
      ensures Field(Items(d, "events")[i], "risk_score") == Some(JInt(r.events[i].riskScore))
    {
      EventJsonShape(r.events[i], true);
    }
    forall i | 0 <= i < |r.topN|
      ensures KeysOf(Items(d, "top_n")[i]) == EventTopKeys
      ensures Field(Items(d, "top_n")[i], "id") == Some(JInt(r.topN[i].id))
      ensures Field(Items(d, "top_n")[i], "risk_score") == Some(JInt(r.topN[i].riskScore))
    {
      EventJsonShape(r.topN[i], false);
    }
  }

  lemma FmeaItemJsonShape(x: FmeaItemResult, full: bool)
    ensures KeysOf(FmeaItemJson(x, full)) == if full then FmeaItemKeys else FmeaTopKeys
    ensures Field(FmeaItemJson(x, full), "id") == Some(JInt(x.id))
    ensures Field(FmeaItemJson(x, full), "RPN") == Some(JInt(x.rpn))
  {
    if full {
      FmeaFullRpn(x);
    } else {
      FmeaTopRpn(x);
    }
  }

  lemma FmeaFullRpn(x: FmeaItemResult)
    ensures Field(FmeaItemJson(x, true), "RPN") == Some(JInt(x.rpn))
  {
    LookupAt(FmeaItemJson(x, true).fields, 9, "RPN");
  }

  lemma FmeaTopRpn(x: FmeaItemResult)
    ensures Field(FmeaItemJson(x, false), "RPN") == Some(JInt(x.rpn))
  {
    LookupAt(FmeaItemJson(x, false).fields, 6, "RPN");
  }

  /** `FMEAResult.to_dict` keeps the count and order of `items` and `top_n`. */
  lemma FmeaToDictShape(r: FmeaResult)
    ensures KeysOf(FmeaToDict(r)) == FmeaKeys
    ensures var d := FmeaToDict(r);
      && |Items(d, "items")| == |r.items|
      && forall i :: 0 <= i < |r.items| ==>
           KeysOf(Items(d, "items")[i]) == FmeaItemKeys
           && Field(Items(d, "items")[i], "id") == Some(JInt(r.items[i].id))
           && Field(Items(d, "items")[i], "RPN") == Some(JInt(r.items[i].rpn))
    ensures var d := FmeaToDict(r);
      && |Items(d, "top_n")| == |r.topN|
      && forall i :: 0 <= i < |r.topN| ==>
           KeysOf(Items(d, "top_n")[i]) == FmeaTopKeys
           && Field(Items(d, "top_n")[i], "id") == Some(JInt(r.topN[i].id))
           && Field(Items(d, "top_n")[i], "RPN") == Some(JInt(r.topN[i].rpn))
    ensures Field(FmeaToDict(r), "total_rpn") == Some(JInt(r.totalRpn))
  {
    var d := FmeaToDict(r);
    LookupAt(d.fields, 1, "top_n");
    LookupAt(d.fields, 2, "total_rpn");
    forall i | 0 <= i < |r.items|
      ensures KeysOf(Items(d, "items")[i]) == FmeaItemKeys
      ensures Field(Items(d, "items")[i], "id") == Some(JInt(r.items[i].id))
      ensures Field(Items(d, "items")[i], "RPN") == Some(JInt(r.items[i].rpn))
    {
      FmeaItemJsonShape(r.items[i], true);
    }
    forall i | 0 <= i < |r.topN|
      ensures KeysOf(Items(d, "top_n")[i]) == FmeaTopKeys
      ensures Field(Items(d, "top_n")[i], "id") == Some(JInt(r.topN[i].id))
      ensures Field(Items(d, "top_n")[i], "RPN") == Some(JInt(r.topN[i].rpn))
    {
      FmeaItemJsonShape(r.topN[i], false);
    }
  }

  /** `SensitivityResult.to_dict` keeps the count and order of `factors` and `top_n`. */
  lemma SensitivityToDictShape(r: SensitivityResult)
    ensures KeysOf(SensitivityToDict(r)) == ["model_type", "global_indicator", "base_global_value", "factors", "top_n"]
    ensures var d := SensitivityToDict(r);
      && |Items(d, "factors")| == |r.factors|
      && forall i :: 0 <= i < |r.factors| ==>
           KeysOf(Items(d, "factors")[i]) == FactorKeys
           && Field(Items(d, "factors")[i], "factor_name") == Some(JStr(r.factors[i].factorName))
    ensures var d := SensitivityToDict(r);
      && |Items(d, "top_n")| == |r.topN|
      && forall i :: 0 <= i < |r.topN| ==>
           KeysOf(Items(d, "top_n")[i]) == FactorTopKeys
           && Field(Items(d, "top_n")[i], "factor_name") == Some(JStr(r.topN[i].factorName))
  {
    var d := SensitivityToDict(r);
    LookupAt(d.fields, 3, "factors");
    LookupAt(d.fields, 4, "top_n");
  }

  /** This file's `MonteCarloResult.to_dict` keeps the whole histogram. */
  lemma McSummaryToDictShape(m: McSummary)
    ensures KeysOf(McSummaryToDict(m)) == ["model_type", "n_samples", "event_stats", "global_stats", "histogram_data"]
    ensures |Items(McSummaryToDict(m), "event_stats")| == |m.eventStats|
    ensures Items(McSummaryToDict(m), "histogram_data") == RealArray(m.histogram).items
    ensures |RealArray(m.histogram).items| == |m.histogram|
  {
    var d := McSummaryToDict(m);
    LookupAt(d.fields, 2, "event_stats");
    LookupAt(d.fields, 4, "histogram_data");
  }

  lemma SectionKeys<T>(k: string, o: Option<T>, toJson: T -> Json)
    ensures FieldKeys(Section(k, o, toJson)) == if o.Some? then [k] else []
  {
  }

  lemma DictSectionKeys(k: string, o: Option<seq<(string, Json)>>)
    ensures FieldKeys(DictSection(k, o)) == if o.Some? && o.value != [] then [k] else []
  {
  }

  lemma ModelSectionsKeys(e: EvaluationResult)
    ensures forall k :: k in FieldKeys(ModelSections(e)) <==>
      || (k == "risk_matrix" && e.riskMatrix.Some?)
      || (k == "fmea" && e.fmea.Some?)
      || (k == "monte_carlo_rm" && e.monteCarloRm.Some?)
      || (k == "monte_carlo_fmea" && e.monteCarloFmea.Some?)
  {
    var s1 := Section("risk_matrix", e.riskMatrix, RiskMatrixToDict);
    var s2 := Section("fmea", e.fmea, FmeaToDict);
    var s3 := Section("monte_carlo_rm", e.monteCarloRm, McSummaryToDict);
    var s4 := Section("monte_carlo_fmea", e.monteCarloFmea, McSummaryToDict);
    SectionKeys("risk_matrix", e.riskMatrix, RiskMatrixToDict);
    SectionKeys("fmea", e.fmea, FmeaToDict);
    SectionKeys("monte_carlo_rm", e.monteCarloRm, McSummaryToDict);
    SectionKeys("monte_carlo_fmea", e.monteCarloFmea, McSummaryToDict);
    FieldKeysAppend(s1, s2);
    FieldKeysAppend(s1 + s2, s3);
    FieldKeysAppend(s1 + s2 + s3, s4);
  }

  lemma DerivedSectionsKeys(e: EvaluationResult)
    ensures forall k :: k in FieldKeys(DerivedSections(e)) <==>
      || (k == "sensitivity_rm" && e.sensitivityRm.Some?)
      || (k == "sensitivity_fmea" && e.sensitivityFmea.Some?)
      || (k == "fta_result" && e.ftaResult.Some? && e.ftaResult.value != [])
      || (k == "ahp_result" && e.ahpResult.Some? && e.ahpResult.value != [])
  {
    var s5 := Section("sensitivity_rm", e.sensitivityRm, SensitivityToDict);
    var s6 := Section("sensitivity_fmea", e.sensitivityFmea, SensitivityToDict);
    var s7 := DictSection("fta_result", e.ftaResult);
    var s8 := DictSection("ahp_result", e.ahpResult);
    SectionKeys("sensitivity_rm", e.sensitivityRm, SensitivityToDict);
    SectionKeys("sensitivity_fmea", e.sensitivityFmea, SensitivityToDict);
    DictSectionKeys("fta_result", e.ftaResult);
    DictSectionKeys("ahp_result", e.ahpResult);
    FieldKeysAppend(s5, s6);
    FieldKeysAppend(s5 + s6, s7);
    FieldKeysAppend(s5 + s6 + s7, s8);
  }

  /**
   * `EvaluationResult.to_dict` always starts with the six base keys and holds each
   * optional section's key exactly when that section is present (truthy).
   */
  lemma EvaluationToDictKeys(e: EvaluationResult)
    ensures |KeysOf(EvaluationToDict(e))| >= 6
    ensures KeysOf(EvaluationToDict(e))[..6] == EvaluationBaseKeys
    ensures forall k :: k in KeysOf(EvaluationToDict(e)) <==> k in EvaluationBaseKeys || SectionPresent(e, k)
  {
    var d := EvaluationToDict(e);
    var base := d.fields[..6];
    assert d.fields == base + Sections(e);
    FieldKeysAppend(base, Sections(e));
    FieldKeysAppend(ModelSections(e), DerivedSections(e));
    assert FieldKeys(base) == EvaluationBaseKeys;
    ModelSectionsKeys(e);
    DerivedSectionsKeys(e);
  }
}
