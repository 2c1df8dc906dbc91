// The risk matrix model (app/models/risk_matrix.py): R = L x S per event, the
// four-level scale, a 5x5 count grid with the ids filed under each "L_S" key, level
// counts, total and mean risk, a stable Top-N and the recommendation lines.
module RiskMatrix {
  import opened Common
  import opened ModelBase
  import opened RiskTypes
  import opened Records

  const Schema: seq<ParamSpec> :=
    [ParamSpec("top_n", "Top-N事件数", IntParam, PInt(10), "展示前N个高风险事件", Some(1.0), Some(50.0), [])]

  const Info: ModelInfo := ModelInfo("risk_matrix", "风险矩阵 (Risk Matrix)",
    "基于可能性(L)和严重性(S)计算风险分数 R=L×S，适用于定性风险评估", "风险评估", Schema)

  /** `get_risk_level`. */
  function RiskLevelOf(r: int): (name: string)
    ensures name == "Low" <==> r <= 4
    ensures name == "Extreme" <==> r >= 17
  {
    LevelName(FromScore(r))
  }

  function ScoreEvent(e: RiskEvent): EventResult
  {
    var r := e.likelihood * e.severity;
    EventResult(e.id, e.name, e.likelihood, e.severity, r, FromScore(r), e.hazardType, e.desc)
  }

  function Scored(events: seq<RiskEvent>): seq<EventResult>
  {
    seq(|events|, i requires 0 <= i < |events| => ScoreEvent(events[i]))
  }

  function ByScore(e: EventResult): real { e.riskScore as real }
  function ScoreOf(e: EventResult): int { e.riskScore }
  function LevelsOf(rs: seq<EventResult>): seq<RiskLevel>
  {
    seq(|rs|, i requires 0 <= i < |rs| => rs[i].level)
  }

  // ---------------------------------------------------------------------------
  // The count grid `matrix_data`.

  function ZeroGrid(): seq<seq<int>>
  {
    seq(5, _ => seq(5, _ => 0))
  }

  predicate IsGrid(m: seq<seq<int>>)
  {
    |m| == 5 && forall i :: 0 <= i < 5 ==> |m[i]| == 5
  }

  /** Python's `row[v - 1]` on a list of five: -5..-1 count from the end, others raise IndexError. */
  function CellIndex(v: int): (r: Option<nat>)
    ensures r.Some? ==> r.value < 5
    ensures 1 <= v <= 5 ==> r == Some(v - 1)
    ensures r.None? <==> v < -4 || v > 5
  {
    var i := v - 1;
    if 0 <= i < 5 then Some(i) else if -5 <= i < 0 then Some(i + 5) else None
  }

  function Inc(m: seq<seq<int>>, i: nat, j: nat): seq<seq<int>>
    requires IsGrid(m) && i < 5 && j < 5
  {
    m[i := m[i][j := m[i][j] + 1]]
  }

  /** The grid after filing every result in order, or None once an index raises. */
  function Grid(rs: seq<EventResult>): (g: Option<seq<seq<int>>>)
    ensures g.Some? ==> IsGrid(g.value)
  {
    if rs == [] then Some(ZeroGrid())
    else
      var prev := Grid(rs[..|rs| - 1]);
      var e := rs[|rs| - 1];
      var i := CellIndex(e.likelihood);
      var j := CellIndex(e.severity);
      if prev.None? || i.None? || j.None? then None
      else Some(Inc(prev.value, i.value, j.value))
  }

  function InCell(i: nat, j: nat): EventResult -> bool
  {
    (e: EventResult) => CellIndex(e.likelihood) == Some(i) && CellIndex(e.severity) == Some(j)
  }

  function RowSum(row: seq<int>): int { SumBy(row, (x: int) => x) }
  function GridSum(m: seq<seq<int>>): int { SumBy(m, RowSum) }

  predicate Indexable(e: EventResult)
  {
    CellIndex(e.likelihood).Some? && CellIndex(e.severity).Some?
  }

  /** The grid exists exactly when every event's L and S index a list of five. */
  lemma {:induction false} GridDefined(rs: seq<EventResult>)
    ensures Grid(rs).Some? <==> forall k :: 0 <= k < |rs| ==> Indexable(rs[k])
    decreases |rs|
  {
    if rs != [] {
      var n := |rs| - 1;
      GridDefined(rs[..n]);
      assert forall k :: 0 <= k < n ==> rs[..n][k] == rs[k];
    }
  }

  lemma {:induction false} SumByZero<T>(s: seq<T>, f: T -> int)
    requires forall k :: 0 <= k < |s| ==> f(s[k]) == 0
    ensures SumBy(s, f) == 0
    decreases |s|
  {
    if s != [] {
      var n := |s| - 1;
      assert forall k :: 0 <= k < n ==> s[..n][k] == s[k];
      SumByZero(s[..n], f);
    }
  }

  lemma ZeroGridFacts()
    ensures IsGrid(ZeroGrid())
    ensures forall i, j :: 0 <= i < 5 && 0 <= j < 5 ==> ZeroGrid()[i][j] == 0
    ensures GridSum(ZeroGrid()) == 0
  {
    var z := ZeroGrid();
    forall i | 0 <= i < 5 ensures RowSum(z[i]) == 0 {
      SumByZero(z[i], (x: int) => x);
    }
    SumByZero(z, RowSum);
  }

  lemma IncSum(m: seq<seq<int>>, i: nat, j: nat)
    requires IsGrid(m) && i < 5 && j < 5
    ensures GridSum(Inc(m, i, j)) == GridSum(m) + 1
  {
    SumByUpdate(m[i], j, m[i][j] + 1, (x: int) => x);
    SumByUpdate(m, i, m[i][j := m[i][j] + 1], RowSum);
  }

  /**
   * Cell (i, j) counts the events whose L and S land on row i and column j, and the
   * cells add up to the number of events.
   */
  lemma {:induction false} GridCounts(rs: seq<EventResult>)
    requires Grid(rs).Some?
    ensures forall i, j :: 0 <= i < 5 && 0 <= j < 5 ==> Grid(rs).value[i][j] == CountBy(rs, InCell(i, j))
    ensures GridSum(Grid(rs).value) == |rs|
    decreases |rs|
  {
    if rs == [] {
      ZeroGridFacts();
    } else {
      var n := |rs| - 1;
      var e := rs[n];
      GridCounts(rs[..n]);
      var m := Grid(rs[..n]).value;
      var i0 := CellIndex(e.likelihood).value;
      var j0 := CellIndex(e.severity).value;
      IncSum(m, i0, j0);
      forall i, j | 0 <= i < 5 && 0 <= j < 5
        ensures Grid(rs).value[i][j] == CountBy(rs, InCell(i, j))
      {
        CountByAppend(rs[..n], e, InCell(i, j));
        assert rs[..n] + [e] == rs;
      }
    }
  }

  // ---------------------------------------------------------------------------
  // The id index `matrix_events`. Its key is f"{L}_{S}"; `str` of an int never holds
  // "_", so distinct (L, S) pairs give distinct keys and the model keys by the pair.

  /** The position of the entry for (l, s), or |cells| when there is none. */
  function FindCell(cells: seq<CellEvents>, l: int, s: int): (k: nat)
    ensures k <= |cells|
    ensures k < |cells| ==> cells[k].likelihood == l && cells[k].severity == s
    ensures forall a :: 0 <= a < k ==> !(cells[a].likelihood == l && cells[a].severity == s)
  {
    if cells == [] then 0
    else if cells[0].likelihood == l && cells[0].severity == s then 0
    else 1 + FindCell(cells[1..], l, s)
  }

  /** `if key not in matrix_events: matrix_events[key] = []`, then append the id. */
  function FileId(cells: seq<CellEvents>, l: int, s: int, id: int): seq<CellEvents>
  {
    var k := FindCell(cells, l, s);
    if k < |cells| then cells[k := cells[k].(ids := cells[k].ids + [id])]
    else cells + [CellEvents(l, s, [id])]
  }

  function Cells(rs: seq<EventResult>): seq<CellEvents>
  {
    if rs == [] then []
    else
      var e := rs[|rs| - 1];
      FileId(Cells(rs[..|rs| - 1]), e.likelihood, e.severity, e.id)
  }

  /** The ids of the events with exactly these L and S, in event order. */
  function IdsWith(rs: seq<EventResult>, l: int, s: int): seq<int>
  {
    if rs == [] then []
    else
      var e := rs[|rs| - 1];
      IdsWith(rs[..|rs| - 1], l, s) + (if e.likelihood == l && e.severity == s then [e.id] else [])
  }

  predicate DistinctCells(cells: seq<CellEvents>)
  {
    forall a, b :: 0 <= a < b < |cells| ==>
      !(cells[a].likelihood == cells[b].likelihood && cells[a].severity == cells[b].severity)
  }

  lemma {:induction false} IdsWithNone(rs: seq<EventResult>, l: int, s: int)
    requires forall t :: 0 <= t < |rs| ==> !(rs[t].likelihood == l && rs[t].severity == s)
    ensures IdsWith(rs, l, s) == []
    decreases |rs|
  {
    if rs != [] {
      var n := |rs| - 1;
      assert forall t :: 0 <= t < n ==> rs[..n][t] == rs[t];
      IdsWithNone(rs[..n], l, s);
    }
  }

  predicate HasKey(cells: seq<CellEvents>, l: int, s: int)
  {
    exists k :: 0 <= k < |cells| && cells[k].likelihood == l && cells[k].severity == s
  }

  /** Filing one id keeps the keys distinct, appends the id under its key only, and adds a key at the end when new. */
  lemma FileIdFacts(cells: seq<CellEvents>, l: int, s: int, id: int)
    requires DistinctCells(cells)
    ensures var r := FileId(cells, l, s, id);
      && DistinctCells(r)
      && (|r| == |cells| || (|r| == |cells| + 1 && r[|cells|] == CellEvents(l, s, [id]) && !HasKey(cells, l, s)))
      && (forall k :: 0 <= k < |cells| ==>
            r[k].likelihood == cells[k].likelihood && r[k].severity == cells[k].severity
            && r[k].ids == cells[k].ids + (if cells[k].likelihood == l && cells[k].severity == s then [id] else []))
      && HasKey(r, l, s)
  {
    var k0 := FindCell(cells, l, s);
    var r := FileId(cells, l, s, id);
    if k0 < |cells| {
      assert r[k0].likelihood == l && r[k0].severity == s;
    } else {
      assert r[|cells|].likelihood == l && r[|cells|].severity == s;
    }
  }

  /**
   * Each key appears once, lists the ids of exactly the events with that (L, S) in
   * event order, and every event's key is present.
   */
  lemma {:induction false} CellsMeaning(rs: seq<EventResult>)
    ensures DistinctCells(Cells(rs))
    ensures forall k :: 0 <= k < |Cells(rs)| ==>
      Cells(rs)[k].ids == IdsWith(rs, Cells(rs)[k].likelihood, Cells(rs)[k].severity)
    ensures forall t :: 0 <= t < |rs| ==> HasKey(Cells(rs), rs[t].likelihood, rs[t].severity)
    decreases |rs|
  {
    if rs != [] {
      var n := |rs| - 1;
      var e := rs[n];
      var init := rs[..n];
      CellsMeaning(init);
      var prev := Cells(init);
      var cur := Cells(rs);
      FileIdFacts(prev, e.likelihood, e.severity, e.id);
      if |cur| > |prev| {
        forall t | 0 <= t < n
          ensures !(rs[t].likelihood == e.likelihood && rs[t].severity == e.severity)
        {
          assert init[t] == rs[t];
        }
        IdsWithNone(init, e.likelihood, e.severity);
      }
      forall t | 0 <= t < |rs|
        ensures HasKey(cur, rs[t].likelihood, rs[t].severity)
      {
        if t < n {
          assert init[t] == rs[t];
          var kt :| 0 <= kt < |prev| && prev[kt].likelihood == rs[t].likelihood && prev[kt].severity == rs[t].severity;
          assert cur[kt].likelihood == rs[t].likelihood && cur[kt].severity == rs[t].severity;
        }
      }
    }
  }

  predicate InMatrixRange(e: EventResult)
  {
    1 <= e.likelihood <= 5 && 1 <= e.severity <= 5
  }

  lemma {:induction false} CountMatchesIds(rs: seq<EventResult>, l: int, s: int)
    requires forall k :: 0 <= k < |rs| ==> InMatrixRange(rs[k])
    requires 1 <= l <= 5 && 1 <= s <= 5
    ensures CountBy(rs, InCell(l - 1, s - 1)) == |IdsWith(rs, l, s)|
    decreases |rs|
  {
    if rs != [] {
      var n := |rs| - 1;
      assert forall k :: 0 <= k < n ==> rs[..n][k] == rs[k];
      CountMatchesIds(rs[..n], l, s);
    }
  }

  /**
   * With every L and S in 1..5, `matrix_data[L-1][S-1]` equals the number of ids
   * filed under "L_S".
   */
  lemma GridAgreesWithCells(rs: seq<EventResult>)
    requires forall k :: 0 <= k < |rs| ==> InMatrixRange(rs[k])
    ensures Grid(rs).Some?
    ensures CountsCells(Grid(rs).value, Cells(rs))
  {
    GridDefined(rs);
    CellsMeaning(rs);
    var grid := Grid(rs).value;
    forall l, s | 1 <= l <= 5 && 1 <= s <= 5
      ensures grid[l - 1][s - 1] == |IdsWith(rs, l, s)|
    {
      CellAgrees(rs, l, s);
    }
    CountsCellsByIds(rs, grid, Cells(rs));
  }

  lemma CountsCellsByIds(rs: seq<EventResult>, grid: seq<seq<int>>, cs: seq<CellEvents>)
    requires IsGrid(grid)
    requires forall l, s :: 1 <= l <= 5 && 1 <= s <= 5 ==> grid[l - 1][s - 1] == |IdsWith(rs, l, s)|
    requires forall k :: 0 <= k < |cs| ==> cs[k].ids == IdsWith(rs, cs[k].likelihood, cs[k].severity)
    ensures CountsCells(grid, cs)
  {
  }

  /** Every in-range cell list has as many ids as the grid counts at its (L, S). */
  predicate CountsCells(grid: seq<seq<int>>, cs: seq<CellEvents>)
  {
    IsGrid(grid)
    && forall k :: 0 <= k < |cs| && 1 <= cs[k].likelihood <= 5 && 1 <= cs[k].severity <= 5 ==>
         grid[cs[k].likelihood - 1][cs[k].severity - 1] == |cs[k].ids|
  }

  lemma CellAgrees(rs: seq<EventResult>, l: int, s: int)
    requires forall k :: 0 <= k < |rs| ==> InMatrixRange(rs[k])
    requires 1 <= l <= 5 && 1 <= s <= 5
    requires Grid(rs).Some?
    ensures Grid(rs).value[l - 1][s - 1] == |IdsWith(rs, l, s)|
  {
    GridCounts(rs);
    CountMatchesIds(rs, l, s);
  }

  // ---------------------------------------------------------------------------
  // The run.

  const EmptyResult: RiskMatrixResult := RiskMatrixResult([], [], ZeroGrid(), [], 0, 0.0, NoLevels)

  /** What `run` returns, as a function of the mission id, the params and the mission's events. */
  function Assess(missionId: Option<int>, params: map<string, ParamValue>, events: seq<RiskEvent>)
    : RunResult<RiskMatrixResult>
  {
    if missionId.None? then Failure(MissingMissionId)
    else if events == [] then Success(EmptyResult)
    else
      var rs := Scored(events);
      var stop := SliceStopParam(params, "top_n", 10);
      var grid := Grid(rs);
      if stop.None? || grid.None? then Failure(EvaluationFailed)
      else
        var total := SumBy(rs, ScoreOf);
        Success(RiskMatrixResult(rs, PySlice(SortDesc(rs, ByScore), stop.value), grid.value, Cells(rs),
          total, total as real / |rs| as real, TallyLevels(LevelsOf(rs))))
  }

  /** `RiskMatrixModel.run` (the average is kept unrounded). */
  method Run(missionId: Option<int>, params: map<string, ParamValue>, events: seq<RiskEvent>)
    returns (r: RunResult<RiskMatrixResult>)
    ensures r == Assess(missionId, params, events)
  {
    if missionId.None? {
      return Failure(MissingMissionId);
    }
    var stop := SliceStopParam(params, "top_n", 10);
    if events == [] {
      return Success(EmptyResult);
    }
    var results := ScoreAll(events);
    var sorted := SortDesc(results, ByScore);
    if stop.None? {
      return Failure(EvaluationFailed);
    }
    var top := PySlice(sorted, stop.value);
    var ok, matrix, cells := BuildMatrix(results);
    if !ok {
      return Failure(EvaluationFailed);
    }
    var counts := CountLevels(results);
    var total := TotalRisk(results);
    return Success(RiskMatrixResult(results, top, matrix, cells, total,
                                    total as real / |results| as real, counts));
  }

  /** The scoring loop: one result per event, in event order. */
  method ScoreAll(events: seq<RiskEvent>) returns (results: seq<EventResult>)
    ensures results == Scored(events)
  {
    results := [];
    var k := 0;
    while k < |events|
      invariant 0 <= k <= |events|
      invariant results == Scored(events[..k])
    {
      var e := events[k];
      var score := e.likelihood * e.severity;
      results := results + [EventResult(e.id, e.name, e.likelihood, e.severity, score, FromScore(score),
                                        e.hazardType, e.desc)];
      k := k + 1;
    }
    assert events[..k] == events;
  }

  /** The matrix loop; `ok` is false where Python raises IndexError. */
  method BuildMatrix(results: seq<EventResult>) returns (ok: bool, matrix: seq<seq<int>>, cells: seq<CellEvents>)
    ensures ok <==> Grid(results).Some?
    ensures ok ==> Grid(results) == Some(matrix) && cells == Cells(results)
  {
    matrix := ZeroGrid();
    cells := [];
    var k := 0;
    while k < |results|
      invariant 0 <= k <= |results|
      invariant Grid(results[..k]) == Some(matrix)
      invariant cells == Cells(results[..k])
    {
      var er := results[k];
      assert results[..k + 1][..k] == results[..k];
      var i := CellIndex(er.likelihood);
      var j := CellIndex(er.severity);
      if i.None? || j.None? {
        GridPrefixNone(results, k + 1);
        return false, matrix, cells;
      }
      matrix := Inc(matrix, i.value, j.value);
      cells := FileId(cells, er.likelihood, er.severity, er.id);
      k := k + 1;
    }
    assert results[..k] == results;
    ok := true;
  }

  method CountLevels(results: seq<EventResult>) returns (counts: LevelCounts)
    ensures counts == TallyLevels(LevelsOf(results))
  {
    counts := NoLevels;
    var k := 0;
    while k < |results|
      invariant 0 <= k <= |results|
      invariant counts == TallyLevels(LevelsOf(results[..k]))
    {
      assert LevelsOf(results[..k + 1])[..k] == LevelsOf(results[..k]);
      counts := Bump(counts, results[k].level);
      k := k + 1;
    }
    assert results[..k] == results;
  }

  method TotalRisk(results: seq<EventResult>) returns (total: int)
    ensures total == SumBy(results, ScoreOf)
  {
    total := 0;
    var k := 0;
    while k < |results|
      invariant 0 <= k <= |results|
      invariant total == SumBy(results[..k], ScoreOf)
    {
      assert results[..k + 1][..k] == results[..k];
      total := total + results[k].riskScore;
      k := k + 1;
    }
    assert results[..k] == results;
  }

  /** Once the grid fails on a prefix, it fails on every longer prefix. */
  lemma {:induction false} GridPrefixNone(rs: seq<EventResult>, k: nat)
    requires k <= |rs| && Grid(rs[..k]).None?
    ensures Grid(rs).None?
    decreases |rs| - k
  {
    if k < |rs| {
      assert rs[..k + 1][..k] == rs[..k];
      GridPrefixNone(rs, k + 1);
    } else {
      assert rs[..k] == rs;
    }
  }

  /** `mission_id` None fails; no events gives the zero grid, zero totals and zero counts. */
  lemma AssessEdgeCases(missionId: Option<int>, params: map<string, ParamValue>, events: seq<RiskEvent>)
    ensures missionId.None? ==> Assess(missionId, params, events) == Failure(MissingMissionId)
    ensures missionId.Some? && events == [] ==>
      && Assess(missionId, params, events).Success?
      && var d := Assess(missionId, params, events).data;
      && d.events == [] && d.topN == [] && d.matrixEvents == []
      && GridSum(d.matrixData) == 0 && d.totalRisk == 0 && TotalCount(d.levelCounts) == 0
  {
    ZeroGridFacts();
  }

  /** A run with a mission and events fails only on a bad `top_n` or an event whose L or S raises. */
  lemma AssessFailure(missionId: Option<int>, params: map<string, ParamValue>, events: seq<RiskEvent>)
    requires missionId.Some? && events != []
    ensures Assess(missionId, params, events).Failure? <==>
      SliceStopParam(params, "top_n", 10).None?
      || exists k :: 0 <= k < |events| && !Indexable(ScoreEvent(events[k]))
  {
    var rs := Scored(events);
    GridDefined(rs);
    assert forall k :: 0 <= k < |events| ==> rs[k] == ScoreEvent(events[k]);
  }

  /** A successful run scores each event as L x S with its level, in event order. */
  lemma AssessScores(missionId: Option<int>, params: map<string, ParamValue>, events: seq<RiskEvent>)
    requires Assess(missionId, params, events).Success?
    ensures var d := Assess(missionId, params, events).data;
      && |d.events| == |events|
      && forall k :: 0 <= k < |events| ==>
            d.events[k].id == events[k].id
            && d.events[k].riskScore == events[k].likelihood * events[k].severity
            && d.events[k].level == FromScore(events[k].likelihood * events[k].severity)
  {
  }

  /** A successful run counts every event once in the grid, under its own cell. */
  lemma AssessGrid(missionId: Option<int>, params: map<string, ParamValue>, events: seq<RiskEvent>)
    requires Assess(missionId, params, events).Success? && events != []
    ensures var d := Assess(missionId, params, events).data;
      && GridSum(d.matrixData) == |events|
      && forall i, j :: 0 <= i < 5 && 0 <= j < 5 ==> d.matrixData[i][j] == CountBy(d.events, InCell(i, j))
  {
    var rs := Scored(events);
    assert Assess(missionId, params, events).data.matrixData == Grid(rs).value;
    GridCounts(rs);
  }

  /**
   * A successful run counts every event once by level and totals the scores.
   */
  lemma AssessTotals(missionId: Option<int>, params: map<string, ParamValue>, events: seq<RiskEvent>)
    requires Assess(missionId, params, events).Success? && events != []
    ensures var d := Assess(missionId, params, events).data;
      && TotalCount(d.levelCounts) == |events|
      && (forall l :: CountOf(d.levelCounts, l) == CountBy(LevelsOf(d.events), (m: RiskLevel) => m == l))
      && d.totalRisk == SumBy(d.events, ScoreOf)
  {
    var rs := Scored(events);
    var d := Assess(missionId, params, events).data;
    assert d.events == rs && d.levelCounts == TallyLevels(LevelsOf(rs));
    TallyLevelsMeaning(LevelsOf(rs));
  }

  /** The mean risk times the number of events is the total risk. */
  lemma AssessMean(missionId: Option<int>, params: map<string, ParamValue>, events: seq<RiskEvent>)
    requires Assess(missionId, params, events).Success? && events != []
    ensures Assess(missionId, params, events).data.avgRisk * |events| as real
         == Assess(missionId, params, events).data.totalRisk as real
  {
    var d := Assess(missionId, params, events).data;
    var n := |events| as real;
    var x := d.totalRisk as real;
    assert |Scored(events)| == |events|;
    assert d.avgRisk == x / n;
    DivTimes(x, n);
    assert d.avgRisk * n == x;
  }

  lemma DivTimes(x: real, n: real)
    requires n > 0.0
    ensures (x / n) * n == x
  {
  }

  /** Top-N is a prefix of the stable descending sort by score, of length `min(top_n, n)`. */
  lemma AssessTop(missionId: Option<int>, params: map<string, ParamValue>, events: seq<RiskEvent>)
    requires Assess(missionId, params, events).Success? && events != []
    ensures var d := Assess(missionId, params, events).data;
      var sorted := SortDesc(d.events, ByScore);
      && SortedDesc(sorted, ByScore) && multiset(sorted) == multiset(d.events)
      && (forall v :: KeyFilter(sorted, ByScore, v) == KeyFilter(d.events, ByScore, v))
      && d.topN == sorted[..|d.topN|]
      && var stop := SliceStopParam(params, "top_n", 10).value;
      (stop.StopAt? && stop.k >= 0 ==> |d.topN| == MinInt(stop.k, |events|))
  {
    var d := Assess(missionId, params, events).data;
    SortDescFacts(d.events, ByScore);
    forall v ensures KeyFilter(SortDesc(d.events, ByScore), ByScore, v) == KeyFilter(d.events, ByScore, v) {
      SortDescStable(d.events, ByScore, v);
    }
  }

  // ---------------------------------------------------------------------------
  // `generate_recommendations`, line by line (the wording of each line is fixed text).

  datatype Advice =
    | Summary(level: RiskLevel, count: nat)      // "there are N extreme/high events; act as follows"
    | Measure(level: RiskLevel, index: nat)      // one of the fixed bullet lines of that level
    | Example(level: RiskLevel, name: string, likelihood: int, severity: int, riskScore: int)
    | GoodState(index: nat)                      // the "no extreme or high risk" lines

  function HasLevel(l: RiskLevel): EventResult -> bool
  {
    (e: EventResult) => e.level == l
  }

  function IsExample(l: RiskLevel): Advice -> bool
  {
    (a: Advice) => a.Example? && a.level == l
  }

  function Examples(l: RiskLevel, es: seq<EventResult>): seq<Advice>
  {
    if es == [] then []
    else
      var e := es[|es| - 1];
      Examples(l, es[..|es| - 1]) + [Example(l, e.name, e.likelihood, e.severity, e.riskScore)]
  }

  function Measures(l: RiskLevel, n: nat): seq<Advice>
  {
    seq(n, (k: int) requires 0 <= k < n => Measure(l, k))
  }

  /** The block for one level: summary, `nMeasures` bullets, and at most three examples. */
  function Block(l: RiskLevel, es: seq<EventResult>, nMeasures: nat): seq<Advice>
  {
    if es == [] then []
    else [Summary(l, |es|)] + Measures(l, nMeasures) + Examples(l, es[..MinInt(3, |es|)])
  }

  function Recommendations(r: RiskMatrixResult): seq<Advice>
  {
    var extreme := Filter(r.events, HasLevel(Extreme));
    var high := Filter(r.events, HasLevel(High));
    Block(Extreme, extreme, 4) + Block(High, high, 3)
      + (if extreme == [] && high == [] then [GoodState(0), GoodState(1), GoodState(2)] else [])
  }

  lemma {:induction false} ExamplesCount(l: RiskLevel, es: seq<EventResult>, m: RiskLevel)
    ensures CountBy(Examples(l, es), IsExample(m)) == if l == m then |es| else 0
    ensures forall a :: a in Examples(l, es) ==> a.Example? && a.level == l
    ensures forall a :: a in Examples(l, es) ==>
      exists e :: e in es && a == Example(l, e.name, e.likelihood, e.severity, e.riskScore)
    decreases |es|
  {
    if es != [] {
      var n := |es| - 1;
      ExamplesCount(l, es[..n], m);
      CountByAppend(Examples(l, es[..n]), Example(l, es[n].name, es[n].likelihood, es[n].severity, es[n].riskScore), IsExample(m));
      forall a | a in Examples(l, es)
        ensures exists e :: e in es && a == Example(l, e.name, e.likelihood, e.severity, e.riskScore)
      {
        if a in Examples(l, es[..n]) {
          var e :| e in es[..n] && a == Example(l, e.name, e.likelihood, e.severity, e.riskScore);
          assert e in es;
        } else {
          assert es[n] in es;
        }
      }
    }
  }

  lemma {:induction false} MeasuresCount(l: RiskLevel, n: nat, m: RiskLevel)
    ensures CountBy(Measures(l, n), IsExample(m)) == 0
  {
    CountByZero(Measures(l, n), IsExample(m));
  }

  lemma BlockFacts(l: RiskLevel, es: seq<EventResult>, nMeasures: nat, m: RiskLevel)
    ensures CountBy(Block(l, es, nMeasures), IsExample(m)) == if l == m then MinInt(3, |es|) else 0
    ensures forall a :: a in Block(l, es, nMeasures) ==> !a.GoodState?
    ensures forall a :: a in Block(l, es, nMeasures) && a.Example? ==>
      a.level == l && exists e :: e in es && a == Example(l, e.name, e.likelihood, e.severity, e.riskScore)
  {
    if es != [] {
      var ex := Examples(l, es[..MinInt(3, |es|)]);
      ExamplesCount(l, es[..MinInt(3, |es|)], m);
      MeasuresCount(l, nMeasures, m);
      CountByConcat([Summary(l, |es|)], Measures(l, nMeasures), IsExample(m));
      CountByConcat([Summary(l, |es|)] + Measures(l, nMeasures), ex, IsExample(m));
      assert CountBy([Summary(l, |es|)], IsExample(m)) == 0 by {
        assert [Summary(l, |es|)][..0] == [];
      }
      forall a | a in ex
        ensures exists e :: e in es && a == Example(l, e.name, e.likelihood, e.severity, e.riskScore)
      {
        var e :| e in es[..MinInt(3, |es|)] && a == Example(l, e.name, e.likelihood, e.severity, e.riskScore);
        assert e in es;
      }
    }
  }

  /** At most three examples are listed per level: `min(3, count)` for Extreme and for High. */
  lemma RecommendationsExampleCount(r: RiskMatrixResult, m: RiskLevel)
    requires m == Extreme || m == High
    ensures CountBy(Recommendations(r), IsExample(m)) == MinInt(3, CountBy(r.events, HasLevel(m)))
  {
    var extreme := Filter(r.events, HasLevel(Extreme));
    var high := Filter(r.events, HasLevel(High));
    var good: seq<Advice> := if extreme == [] && high == [] then [GoodState(0), GoodState(1), GoodState(2)] else [];
    FilterCount(r.events, HasLevel(m));
    BlockFacts(Extreme, extreme, 4, m);
    BlockFacts(High, high, 3, m);
    CountByConcat(Block(Extreme, extreme, 4), Block(High, high, 3), IsExample(m));
    CountByConcat(Block(Extreme, extreme, 4) + Block(High, high, 3), good, IsExample(m));
    CountByZero(good, IsExample(m));
  }

  /** Every example line shows an event of the run with the level it is listed under. */
  lemma RecommendationsExamplesFromEvents(r: RiskMatrixResult)
    ensures forall a :: a in Recommendations(r) && a.Example? ==>
      exists e :: e in r.events && e.level == a.level && a == Example(a.level, e.name, e.likelihood, e.severity, e.riskScore)
  {
    var extreme := Filter(r.events, HasLevel(Extreme));
    var high := Filter(r.events, HasLevel(High));
    BlockFacts(Extreme, extreme, 4, Extreme);
    BlockFacts(High, high, 3, High);
    forall a | a in Recommendations(r) && a.Example?
      ensures exists e :: e in r.events && e.level == a.level && a == Example(a.level, e.name, e.likelihood, e.severity, e.riskScore)
    {
      if a in Block(Extreme, extreme, 4) {
        var e :| e in extreme && a == Example(Extreme, e.name, e.likelihood, e.severity, e.riskScore);
        assert e in r.events && e.level == Extreme;
      } else {
        assert a in Block(High, high, 3);
        var e :| e in high && a == Example(High, e.name, e.likelihood, e.severity, e.riskScore);
        assert e in r.events && e.level == High;
      }
    }
  }

  /** The good-state lines appear exactly when the run has no Extreme and no High event. */
  lemma RecommendationsGoodState(r: RiskMatrixResult)
    ensures (exists a :: a in Recommendations(r) && a.GoodState?) <==>
      forall e :: e in r.events ==> e.level != Extreme && e.level != High
  {
    var extreme := Filter(r.events, HasLevel(Extreme));
    var high := Filter(r.events, HasLevel(High));
    BlockFacts(Extreme, extreme, 4, Extreme);
    BlockFacts(High, high, 3, High);
    if forall e :: e in r.events ==> e.level != Extreme && e.level != High {
      assert extreme == [] && high == [];
      assert GoodState(0) in Recommendations(r);
    } else {
      var e :| e in r.events && (e.level == Extreme || e.level == High);
      var i :| 0 <= i < |r.events| && r.events[i] == e;
      assert e in extreme || e in high;
    }
  }
}
