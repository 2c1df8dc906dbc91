// The Monte Carlo model (app/models/monte_carlo.py): the discrete ±1 resampling of risk
// events and FMEA items, the distribution-based resampling of the risk data set scored
// by a simplified AHP, the result dictionary and the recommendation lines.
//
// numpy's global generator is an `Rng` object that follows a `Stream`, an arbitrary
// outcome of every draw. The properties below hold for every stream, that is, whatever
// the draws turn out to be.
module MonteCarlo {
  import opened Common
  import opened ModelBase
  import opened Records
  import Ahp

  const Schema: seq<ParamSpec> := [
    ParamSpec("n_samples", "采样次数", IntParam, PInt(2000), "蒙特卡洛采样次数", Some(100.0), Some(100000.0), []),
    ParamSpec("random_seed", "随机种子", IntParam, PInt(42), "随机数种子（设为-1则不固定）", Some(-1.0), Some(999999.0), []),
    ParamSpec("run_risk_matrix", "运行风险矩阵MC", BoolParam, PBool(true), "是否对风险矩阵进行蒙特卡洛分析", None, None, []),
    ParamSpec("run_fmea", "运行FMEA MC", BoolParam, PBool(true), "是否对FMEA进行蒙特卡洛分析", None, None, []),
    ParamSpec("run_ahp", "运行AHP综合得分MC", BoolParam, PBool(true), "是否对AHP综合得分进行蒙特卡洛分析", None, None, [])]

  const Info: ModelInfo := ModelInfo("monte_carlo", "蒙特卡洛模拟",
    "基于分布类型的蒙特卡洛采样，分析风险评分和综合得分的不确定性", "不确定性分析", Schema)

  // ---------------------------------------------------------------------------
  // The generator.

  /** The continuous distributions `_sample_by_distribution` draws from. */
  datatype Variate =
    | Normal(mu: real, sigma: real)
    | LogNormal(mu: real, sigma: real)
    | Uniform(low: real, high: real)
    | Triangular(low: real, mode: real, high: real)

  /** The parameters numpy accepts; any other ones make it raise ValueError. */
  predicate ValidVariate(v: Variate)
  {
    match v
    case Normal(_, sigma) => sigma >= 0.0
    case LogNormal(_, sigma) => sigma >= 0.0
    case Uniform(_, _) => true
    case Triangular(low, mode, high) => low <= mode <= high && low < high
  }

  /** A vector `np.random.choice` accepts: non-empty, non-negative and summing to 1. */
  predicate ValidProbabilities(p: seq<real>)
  {
    |p| > 0 && (forall i :: 0 <= i < |p| ==> p[i] >= 0.0) && SumReals(p) == 1.0
  }

  /**
   * One outcome of every draw: the index `choice` picks (modulo the number of
   * candidates) at the k-th draw, and the value the k-th draw gives from a distribution.
   */
  datatype Stream = Stream(pick: nat -> nat, variate: (nat, Variate) -> real)

  /** numpy's global generator: the stream it follows and the number of draws taken so far. */
  class Rng {
    var stream: Stream
    var drawn: nat
    /** The stream `np.random.seed(s)` restarts the generator on. */
    const seeded: nat -> Stream

    constructor (start: Stream, seeded: nat -> Stream)
      ensures stream == start && drawn == 0 && this.seeded == seeded
    {
      stream := start;
      drawn := 0;
      this.seeded := seeded;
    }

    /** `np.random.seed(s)`: the same seed always restarts the same stream. */
    method Seed(s: nat)
      requires s <= 0xFFFF_FFFF
      modifies this
      ensures stream == seeded(s) && drawn == 0
    {
      stream := seeded(s);
      drawn := 0;
    }

    /** `np.random.choice(candidates, p=p)`: the index of the candidate drawn. */
    method Choice(p: seq<real>) returns (k: nat)
      requires ValidProbabilities(p)
      modifies this
      ensures k < |p| && k == stream.pick(old(drawn)) % |p|
      ensures stream == old(stream) && drawn == old(drawn) + 1
    {
      k := stream.pick(drawn) % |p|;
      drawn := drawn + 1;
    }

    /** `np.random.normal`, `lognormal`, `uniform` or `triangular`. */
    method Draw(v: Variate) returns (x: real)
      requires ValidVariate(v)
      modifies this
      ensures x == stream.variate(old(drawn), v)
      ensures stream == old(stream) && drawn == old(drawn) + 1
    {
      x := stream.variate(drawn, v);
      drawn := drawn + 1;
    }
  }

  // ---------------------------------------------------------------------------
  // _sample_discrete: the nominal score or a neighbour inside the scale.

  /** The candidates: the nominal, then nominal-1 and nominal+1 where they lie in [lo, hi]. */
  function Candidates(nominal: int, lo: int, hi: int): seq<int>
  {
    [nominal] + (if nominal - 1 >= lo then [nominal - 1] else []) + (if nominal + 1 <= hi then [nominal + 1] else [])
  }

  /** Their weights before normalisation: 0.6 for the nominal, 0.2 for each neighbour. */
  function CandidateWeights(nominal: int, lo: int, hi: int): seq<real>
  {
    [0.6] + (if nominal - 1 >= lo then [0.2] else []) + (if nominal + 1 <= hi then [0.2] else [])
  }

  function CandidateTotal(nominal: int, lo: int, hi: int): real
  {
    0.6 + (if nominal - 1 >= lo then 0.2 else 0.0) + (if nominal + 1 <= hi then 0.2 else 0.0)
  }

  /** `[p / total for p in probs]`. */
  function Normalized(p: seq<real>, total: real): (r: seq<real>)
    requires total != 0.0
    ensures |r| == |p|
  {
    seq(|p|, i requires 0 <= i < |p| => p[i] / total)
  }

  /** The probabilities `_sample_discrete` hands to `choice`. */
  function CandidateProbabilities(nominal: int, lo: int, hi: int): seq<real>
  {
    Normalized(CandidateWeights(nominal, lo, hi), CandidateTotal(nominal, lo, hi))
  }

  /** The value drawn when the draw is the k-th one. */
  function Pick(st: Stream, k: nat, nominal: int, lo: int, hi: int): int
  {
    var cs := Candidates(nominal, lo, hi);
    cs[st.pick(k) % |cs|]
  }

  lemma SumOfThree(a: real, b: real, c: real)
    ensures SumReals([a]) == a && SumReals([a, b]) == a + b && SumReals([a, b, c]) == a + b + c
  {
    assert [a][..0] == [] && [a, b][..1] == [a] && [a, b, c][..2] == [a, b];
  }

  lemma CandidateWeightsSum(nominal: int, lo: int, hi: int)
    ensures SumReals(CandidateWeights(nominal, lo, hi)) == CandidateTotal(nominal, lo, hi)
  {
    SumOfThree(0.6, 0.2, 0.2);
  }

  /**
   * The candidates are the nominal and whichever neighbours lie in [lo, hi]; their
   * probabilities are a valid distribution giving the nominal 1, 0.75 or 0.6.
   */
  lemma CandidatesFacts(nominal: int, lo: int, hi: int)
    ensures var cs := Candidates(nominal, lo, hi);
      && cs[0] == nominal
      && (forall c :: c in cs <==> c == nominal || (c == nominal - 1 && lo <= c) || (c == nominal + 1 && c <= hi))
    ensures var cs := Candidates(nominal, lo, hi);
      var ps := CandidateProbabilities(nominal, lo, hi);
      && |ps| == |cs|
      && ValidProbabilities(ps)
      && ps[0] == (if |cs| == 1 then 1.0 else if |cs| == 2 then 0.75 else 0.6)
  {
    var ps := CandidateProbabilities(nominal, lo, hi);
    var t := CandidateTotal(nominal, lo, hi);
    assert |ps| == |CandidateWeights(nominal, lo, hi)|;
    if |ps| == 3 {
      assert ps == [0.6, 0.2, 0.2];
      SumOfThree(0.6, 0.2, 0.2);
    } else if |ps| == 2 {
      assert t == 0.8;
      assert ps == [0.75, 0.25];
      SumOfThree(0.75, 0.25, 0.0);
    } else {
      assert ps == [1.0];
      SumOfThree(1.0, 0.0, 0.0);
    }
  }

  /**
   * A drawn value is within one of the nominal, a neighbour never crosses the bound on
   * its side, and the value stays inside [lo, hi] when the nominal does.
   */
  lemma PickFacts(st: Stream, k: nat, nominal: int, lo: int, hi: int)
    ensures var v := Pick(st, k, nominal, lo, hi);
      && v in Candidates(nominal, lo, hi)
      && nominal - 1 <= v <= nominal + 1
      && (v == nominal - 1 ==> lo <= v)
      && (v == nominal + 1 ==> v <= hi)
      && (lo <= nominal <= hi ==> lo <= v <= hi)
  {
    CandidatesFacts(nominal, lo, hi);
  }

  /** `_sample_discrete(nominal, lo, hi)`. */
  method SampleDiscrete(rng: Rng, nominal: int, lo: int, hi: int) returns (v: int)
    modifies rng
    ensures v == Pick(old(rng.stream), old(rng.drawn), nominal, lo, hi)
    ensures rng.stream == old(rng.stream) && rng.drawn == old(rng.drawn) + 1
  {
    var candidates := [nominal];
    var probs := [0.6];
    if nominal - 1 >= lo {
      candidates := candidates + [nominal - 1];
      probs := probs + [0.2];
    }
    if nominal + 1 <= hi {
      candidates := candidates + [nominal + 1];
      probs := probs + [0.2];
    }
    assert candidates == Candidates(nominal, lo, hi) && probs == CandidateWeights(nominal, lo, hi);
    CandidateWeightsSum(nominal, lo, hi);
    var total := SumReals(probs);
    probs := Normalized(probs, total);
    CandidatesFacts(nominal, lo, hi);
    var k := rng.Choice(probs);
    v := candidates[k];
  }

  // ---------------------------------------------------------------------------
  // The records the discrete analyses resample.

  /** The nominal factors: L and S of a risk event, S, O and D of an FMEA item. */
  datatype Factors = LS(l: int, s: int) | SOD(s: int, o: int, d: int)

  /** A record as the sample loops see it: its id, its name and its nominal factors. */
  datatype McRecord = McRecord(id: int, name: string, factors: Factors)

  function EventRecords(events: seq<RiskEvent>): (xs: seq<McRecord>)
    ensures |xs| == |events|
  {
    seq(|events|, i requires 0 <= i < |events| =>
      McRecord(events[i].id, events[i].name, LS(events[i].likelihood, events[i].severity)))
  }

  function ItemRecords(items: seq<FmeaItem>): (xs: seq<McRecord>)
    ensures |xs| == |items|
  {
    seq(|items|, i requires 0 <= i < |items| =>
      McRecord(items[i].id, items[i].failureMode, SOD(items[i].s, items[i].o, items[i].d)))
  }

  /** The nominal R = L·S or RPN = S·O·D. */
  function NominalOf(f: Factors): int
  {
    match f
    case LS(l, s) => l * s
    case SOD(s, o, d) => s * o * d
  }

  function RecordNominal(x: McRecord): int { NominalOf(x.factors) }

  /** The draws one record takes: one per factor. */
  function DrawsOf(f: Factors): nat { if f.LS? then 2 else 3 }

  /** Every factor on its scale: [1, 5] for L and S, [1, 10] for S, O and D. */
  predicate InScale(f: Factors)
  {
    match f
    case LS(l, s) => 1 <= l <= 5 && 1 <= s <= 5
    case SOD(s, o, d) => 1 <= s <= 10 && 1 <= o <= 10 && 1 <= d <= 10
  }

  /** The sampled R or RPN of a record whose first draw is the k-th, factors drawn in order. */
  function RecordSample(st: Stream, k: nat, f: Factors): int
  {
    match f
    case LS(l, s) => Pick(st, k, l, 1, 5) * Pick(st, k + 1, s, 1, 5)
    case SOD(s, o, d) => Pick(st, k, s, 1, 10) * Pick(st, k + 1, o, 1, 10) * Pick(st, k + 2, d, 1, 10)
  }

  /** One record of the inner loop: `l * s` or `s * o * d` of freshly drawn factors. */
  method SampleRecord(rng: Rng, f: Factors) returns (v: int)
    modifies rng
    ensures v == RecordSample(old(rng.stream), old(rng.drawn), f)
    ensures rng.stream == old(rng.stream) && rng.drawn == old(rng.drawn) + DrawsOf(f)
  {
    match f
    case LS(l, s) =>
      var a := SampleDiscrete(rng, l, 1, 5);
      var b := SampleDiscrete(rng, s, 1, 5);
      v := a * b;
    case SOD(s, o, d) =>
      var a := SampleDiscrete(rng, s, 1, 10);
      var b := SampleDiscrete(rng, o, 1, 10);
      var c := SampleDiscrete(rng, d, 1, 10);
      v := a * b * c;
  }

  lemma MulBounds(a: int, b: int, ma: int, mb: int)
    requires 1 <= a <= ma && 1 <= b <= mb
    ensures 1 <= a * b <= ma * mb
  {
    assert a * b <= ma * b;
    assert ma * b <= ma * mb;
  }

  /** A sampled R lies in [1, 25] and a sampled RPN in [1, 1000] when the nominal factors are on their scales. */
  lemma RecordSampleBounds(st: Stream, k: nat, f: Factors)
    requires InScale(f)
    ensures 1 <= RecordSample(st, k, f) <= (if f.LS? then 25 else 1000)
  {
    match f
    case LS(l, s) =>
      PickFacts(st, k, l, 1, 5);
      PickFacts(st, k + 1, s, 1, 5);
      MulBounds(Pick(st, k, l, 1, 5), Pick(st, k + 1, s, 1, 5), 5, 5);
    case SOD(s, o, d) =>
      PickFacts(st, k, s, 1, 10);
      PickFacts(st, k + 1, o, 1, 10);
      PickFacts(st, k + 2, d, 1, 10);
      var a, b, c := Pick(st, k, s, 1, 10), Pick(st, k + 1, o, 1, 10), Pick(st, k + 2, d, 1, 10);
      MulBounds(a, b, 10, 10);
      MulBounds(a * b, c, 100, 10);
  }

  /** When every draw picks the first candidate, a record samples its nominal value. */
  lemma RecordSampleAtNominal(st: Stream, k: nat, f: Factors)
    requires forall i :: st.pick(i) == 0
    ensures RecordSample(st, k, f) == NominalOf(f)
  {
    match f
    case LS(l, s) =>
      CandidatesFacts(l, 1, 5);
      CandidatesFacts(s, 1, 5);
      assert st.pick(k) == 0 && st.pick(k + 1) == 0;
    case SOD(s, o, d) =>
      CandidatesFacts(s, 1, 10);
      CandidatesFacts(o, 1, 10);
      CandidatesFacts(d, 1, 10);
      assert st.pick(k) == 0 && st.pick(k + 1) == 0 && st.pick(k + 2) == 0;
  }

  // ---------------------------------------------------------------------------
  // The sample loops of run_risk_matrix and run_fmea.

  /** The draws one iteration takes: the records' draws in order. */
  function RoundDraws(xs: seq<McRecord>): nat
  {
    if xs == [] then 0 else RoundDraws(xs[..|xs| - 1]) + DrawsOf(xs[|xs| - 1].factors)
  }

  /** One iteration from the k-th draw on: one sample per record, in order (`r_values`). */
  function Round(st: Stream, k: nat, xs: seq<McRecord>): (r: seq<int>)
    ensures |r| == |xs|
  {
    if xs == [] then []
    else
      var p := xs[..|xs| - 1];
      Round(st, k, p) + [RecordSample(st, k + RoundDraws(p), xs[|xs| - 1].factors)]
  }

  /** The draw at which iteration t starts when the run starts at draw k. */
  function RoundStart(k: nat, xs: seq<McRecord>, t: nat): nat
  {
    k + t * RoundDraws(xs)
  }

  /** The first t iterations, each taking `RoundDraws(xs)` draws. */
  function Rounds(st: Stream, k: nat, xs: seq<McRecord>, t: nat): (rs: seq<seq<int>>)
    ensures |rs| == t
  {
    if t == 0 then [] else Rounds(st, k, xs, t - 1) + [Round(st, RoundStart(k, xs, t - 1), xs)]
  }

  /** The samples of record j over the iterations. */
  function Column(rs: seq<seq<int>>, j: nat): (c: seq<int>)
    ensures |c| == |rs|
  {
    seq(|rs|, t requires 0 <= t < |rs| => if j < |rs[t]| then rs[t][j] else 0)
  }

  /** `all_r_samples`: one list of samples per record. */
  function Columns(rs: seq<seq<int>>, m: nat): (cs: seq<seq<int>>)
    ensures |cs| == m
  {
    seq(m, j requires 0 <= j < m => Column(rs, j))
  }

  /** `sum(s)` over ints. */
  function Total(s: seq<int>): int
  {
    if s == [] then 0 else Total(s[..|s| - 1]) + s[|s| - 1]
  }

  /** `total_risk_samples`: the sum of each iteration. */
  function Totals(rs: seq<seq<int>>): (ts: seq<int>)
    ensures |ts| == |rs|
  {
    seq(|rs|, t requires 0 <= t < |rs| => Total(rs[t]))
  }

  lemma ColumnsSnoc(rs: seq<seq<int>>, row: seq<int>, before: seq<seq<int>>, after: seq<seq<int>>)
    requires before == Columns(rs, |row|) && |after| == |row|
    requires forall j :: 0 <= j < |row| ==> after[j] == before[j] + [row[j]]
    ensures after == Columns(rs + [row], |row|)
  {
    forall j | 0 <= j < |row|
      ensures after[j] == Column(rs + [row], j)
    {
      var c := Column(rs + [row], j);
      assert |after[j]| == |c|;
      forall t | 0 <= t < |c|
        ensures after[j][t] == c[t]
      {
        if t < |rs| {
          assert (rs + [row])[t] == rs[t];
        }
      }
    }
  }

  lemma TotalsSnoc(rs: seq<seq<int>>, row: seq<int>)
    ensures Totals(rs + [row]) == Totals(rs) + [Total(row)]
  {
    var a, b := Totals(rs + [row]), Totals(rs) + [Total(row)];
    assert |a| == |b|;
    forall t | 0 <= t < |a|
      ensures a[t] == b[t]
    {
      if t < |rs| {
        assert (rs + [row])[t] == rs[t];
      }
    }
  }

  /** One more record appends its sample, drawn right after the earlier records' draws. */
  lemma RoundSnoc(st: Stream, k: nat, xs: seq<McRecord>, i: nat)
    requires i < |xs|
    ensures Round(st, k, xs[..i + 1]) == Round(st, k, xs[..i]) + [RecordSample(st, k + RoundDraws(xs[..i]), xs[i].factors)]
    ensures RoundDraws(xs[..i + 1]) == RoundDraws(xs[..i]) + DrawsOf(xs[i].factors)
  {
    assert xs[..i + 1][..i] == xs[..i];
  }

  /** One step of the inner loop: the next record's sample extends the iteration so far. */
  method SampleNext(rng: Rng, xs: seq<McRecord>, i: nat, ghost base: nat, ghost rValues: seq<int>) returns (r: int)
    requires i < |xs| && rValues == Round(rng.stream, base, xs[..i]) && rng.drawn == base + RoundDraws(xs[..i])
    modifies rng
    ensures rValues + [r] == Round(old(rng.stream), base, xs[..i + 1])
    ensures rng.stream == old(rng.stream) && rng.drawn == base + RoundDraws(xs[..i + 1])
  {
    RoundSnoc(rng.stream, base, xs, i);
    r := SampleRecord(rng, xs[i].factors);
  }

  /** The inner loop: one sample per record, appended to `r_values` and to that record's list. */
  method SampleRound(rng: Rng, xs: seq<McRecord>, before: seq<seq<int>>) returns (rValues: seq<int>, samples: seq<seq<int>>)
    requires |before| == |xs|
    modifies rng
    ensures rValues == Round(old(rng.stream), old(rng.drawn), xs)
    ensures |samples| == |xs| && forall j :: 0 <= j < |xs| ==> samples[j] == before[j] + [rValues[j]]
    ensures rng.stream == old(rng.stream) && rng.drawn == old(rng.drawn) + RoundDraws(xs)
  {
    ghost var st, base := rng.stream, rng.drawn;
    samples := before;
    rValues := [];
    var i := 0;
    while i < |xs|
      invariant i <= |xs|
      invariant rng.stream == st && rng.drawn == base + RoundDraws(xs[..i])
      invariant rValues == Round(st, base, xs[..i])
      invariant |samples| == |xs|
      invariant forall j :: 0 <= j < i ==> samples[j] == before[j] + [rValues[j]]
      invariant forall j :: i <= j < |xs| ==> samples[j] == before[j]
    {
      var r := SampleNext(rng, xs, i, base, rValues);
      rValues := rValues + [r];
      samples := samples[i := samples[i] + [r]];
      i := i + 1;
    }
    assert xs[..|xs|] == xs;
  }

  /**
   * The nested sample loops: `n` iterations, each drawing one sample per record and
   * appending it to that record's list, and appending the iteration's sum to the totals.
   */
  method SampleRounds(rng: Rng, xs: seq<McRecord>, n: nat) returns (samples: seq<seq<int>>, totals: seq<int>)
    modifies rng
    ensures var rs := Rounds(old(rng.stream), old(rng.drawn), xs, n);
      samples == Columns(rs, |xs|) && totals == Totals(rs)
    ensures rng.stream == old(rng.stream) && rng.drawn == old(rng.drawn) + n * RoundDraws(xs)
  {
    ghost var st, d0 := rng.stream, rng.drawn;
    samples := seq(|xs|, _ => []);
    totals := [];
    var t := 0;
    while t < n
      invariant t <= n
      invariant rng.stream == st && rng.drawn == RoundStart(d0, xs, t)
      invariant samples == Columns(Rounds(st, d0, xs, t), |xs|)
      invariant totals == Totals(Rounds(st, d0, xs, t))
    {
      ghost var before := samples;
      var rValues;
      rValues, samples := SampleRound(rng, xs, samples);
      RoundsSnoc(st, d0, xs, t, rValues, before, samples);
      RoundStartNext(d0, xs, t);
      totals := totals + [Total(rValues)];
      t := t + 1;
    }
  }

  lemma RoundStartNext(d: nat, xs: seq<McRecord>, t: nat)
    ensures RoundStart(d, xs, t) + RoundDraws(xs) == RoundStart(d, xs, t + 1)
  {
    var w := RoundDraws(xs);
    assert (t + 1) * w == t * w + w;
  }

  /** One more iteration appends its samples to the record lists and its sum to the totals. */
  lemma RoundsSnoc(st: Stream, d: nat, xs: seq<McRecord>, t: nat, row: seq<int>, before: seq<seq<int>>, after: seq<seq<int>>)
    requires before == Columns(Rounds(st, d, xs, t), |xs|) && row == Round(st, RoundStart(d, xs, t), xs)
    requires |after| == |xs| && forall j :: 0 <= j < |xs| ==> after[j] == before[j] + [row[j]]
    ensures after == Columns(Rounds(st, d, xs, t + 1), |xs|)
    ensures Totals(Rounds(st, d, xs, t + 1)) == Totals(Rounds(st, d, xs, t)) + [Total(row)]
  {
    var rs := Rounds(st, d, xs, t);
    assert Rounds(st, d, xs, t + 1) == rs + [row];
    ColumnsSnoc(rs, row, before, after);
    TotalsSnoc(rs, row);
  }

  /** Iteration t of the first n is the round that starts after t full rounds of draws. */
  lemma {:induction false} RoundsAt(st: Stream, k: nat, xs: seq<McRecord>, n: nat, t: nat)
    requires t < n
    ensures Rounds(st, k, xs, n)[t] == Round(st, RoundStart(k, xs, t), xs)
    decreases n
  {
    if t < n - 1 {
      RoundsAt(st, k, xs, n - 1, t);
    }
  }

  /**
   * Each record's list has exactly one sample per iteration, and each total is the sum of
   * that iteration's samples of all records.
   */
  lemma SamplesShape(st: Stream, k: nat, xs: seq<McRecord>, n: nat)
    ensures var rs := Rounds(st, k, xs, n);
      var cols := Columns(rs, |xs|);
      && (forall j :: 0 <= j < |xs| ==> |cols[j]| == n)
      && |Totals(rs)| == n
      && forall t :: 0 <= t < n ==> Totals(rs)[t] == Total(seq(|xs|, j requires 0 <= j < |xs| => cols[j][t]))
  {
    var rs := Rounds(st, k, xs, n);
    var cols := Columns(rs, |xs|);
    forall t | 0 <= t < n
      ensures Totals(rs)[t] == Total(seq(|xs|, j requires 0 <= j < |xs| => cols[j][t]))
    {
      RoundsAt(st, k, xs, n, t);
      assert |rs[t]| == |xs|;
      assert seq(|xs|, j requires 0 <= j < |xs| => cols[j][t]) == rs[t];
    }
  }

  /** Every sample of every record in a round is within the record's sample range. */
  lemma {:induction false} RoundBounds(st: Stream, k: nat, xs: seq<McRecord>)
    requires forall j :: 0 <= j < |xs| ==> InScale(xs[j].factors)
    ensures forall j :: 0 <= j < |xs| ==> 1 <= Round(st, k, xs)[j] <= (if xs[j].factors.LS? then 25 else 1000)
    decreases |xs|
  {
    if xs != [] {
      var p := xs[..|xs| - 1];
      RoundBounds(st, k, p);
      RecordSampleBounds(st, k + RoundDraws(p), xs[|xs| - 1].factors);
      assert forall j :: 0 <= j < |p| ==> Round(st, k, xs)[j] == Round(st, k, p)[j];
    }
  }

  /** A sum of n samples each in [1, m] lies in [n, m·n]. */
  lemma {:induction false} TotalBounds(s: seq<int>, m: int)
    requires forall j :: 0 <= j < |s| ==> 1 <= s[j] <= m
    ensures |s| <= Total(s) <= m * |s|
    decreases |s|
  {
    if s != [] {
      var p := s[..|s| - 1];
      assert forall j :: 0 <= j < |p| ==> p[j] == s[j];
      TotalBounds(p, m);
      assert m * |s| == m * |p| + m;
    }
  }

  /** The nominal samples and their sum: what every round gives when every draw picks the nominal. */
  function Nominals(xs: seq<McRecord>): (r: seq<int>)
    ensures |r| == |xs|
  {
    seq(|xs|, j requires 0 <= j < |xs| => RecordNominal(xs[j]))
  }

  lemma {:induction false} RoundAtNominal(st: Stream, k: nat, xs: seq<McRecord>)
    requires forall i :: st.pick(i) == 0
    ensures Round(st, k, xs) == Nominals(xs)
    decreases |xs|
  {
    if xs != [] {
      var p := xs[..|xs| - 1];
      RoundAtNominal(st, k, p);
      RecordSampleAtNominal(st, k + RoundDraws(p), xs[|xs| - 1].factors);
      assert Nominals(xs) == Nominals(p) + [RecordNominal(xs[|xs| - 1])];
    }
  }

  /** The nominal samples add up to the nominal total Σ L·S or Σ S·O·D. */
  lemma {:induction false} NominalsTotal(xs: seq<McRecord>)
    ensures Total(Nominals(xs)) == SumBy(xs, RecordNominal)
    decreases |xs|
  {
    if xs != [] {
      var p := xs[..|xs| - 1];
      NominalsTotal(p);
      assert Nominals(xs)[..|xs| - 1] == Nominals(p);
    }
  }

  // ---------------------------------------------------------------------------
  // The summaries of run_risk_matrix and run_fmea.

  /** numpy's `mean`, `std` and `percentile` of an array. */
  datatype Numpy = Numpy(mean: seq<real> -> real, std: seq<real> -> real, percentile: (seq<real>, real) -> real)

  /** `np.mean` of a non-empty array is its average (that of an empty one is nan, left open here). */
  ghost predicate MeanIsAverage(np: Numpy)
  {
    forall s: seq<real> :: |s| > 0 ==> np.mean(s) == SumReals(s) / |s| as real
  }

  function Reals(s: seq<int>): (r: seq<real>)
    ensures |r| == |s|
  {
    seq(|s|, i requires 0 <= i < |s| => s[i] as real)
  }

  /** `samples >= threshold` as the 0/1 array `np.mean` averages. */
  function AtLeast(s: seq<real>, threshold: real): (r: seq<real>)
    ensures |r| == |s|
  {
    seq(|s|, i requires 0 <= i < |s| => if s[i] >= threshold then 1.0 else 0.0)
  }

  function Above(threshold: real): real -> bool
  {
    (x: real) => x >= threshold
  }

  datatype EventStats = EventStats(
    eventId: int, eventName: string, nominal: int,
    mean: real, std: real, p50: real, p90: real, p95: real, probHigh: real)

  datatype GlobalStats = GlobalStats(
    indicatorName: string, nominalValue: real,
    mean: real, std: real, p50: real, p90: real, p95: real, probHigh: real)

  datatype AhpStats = AhpStats(
    nominalScore: real,
    mean: real, std: real, p50: real, p90: real, p95: real, probHigh: real, probExtreme: real)

  /** `MonteCarloResult`; `n_samples` is the value the caller passed, whatever its type. */
  datatype McResult = McResult(
    modelType: string,
    nSamples: ParamValue,
    eventStats: seq<EventStats>,
    globalStats: Option<GlobalStats>,
    ahpStats: Option<AhpStats>,
    histogram: seq<real>)

  /** Which of the two discrete analyses: the risk matrix (R = L·S) or FMEA (RPN = S·O·D). */
  datatype Kind = RiskMatrixKind | FmeaKind

  function ModelType(k: Kind): string
  {
    if k == RiskMatrixKind then "risk_matrix" else "fmea"
  }

  /** A record's sample is high at R >= 10 or RPN >= 300. */
  function HighThreshold(k: Kind): int
  {
    if k == RiskMatrixKind then 10 else 300
  }

  function TotalName(k: Kind): string
  {
    if k == RiskMatrixKind then "Total Risk (sum of R)" else "Total RPN"
  }

  function EmptyName(k: Kind): string
  {
    if k == RiskMatrixKind then "Total Risk" else "Total RPN"
  }

  function EventStatsOf(np: Numpy, k: Kind, x: McRecord, samples: seq<int>): EventStats
  {
    var a := Reals(samples);
    EventStats(x.id, x.name, RecordNominal(x), np.mean(a), np.std(a),
      np.percentile(a, 50.0), np.percentile(a, 90.0), np.percentile(a, 95.0),
      np.mean(AtLeast(a, HighThreshold(k) as real)))
  }

  function StatsList(np: Numpy, k: Kind, xs: seq<McRecord>, cols: seq<seq<int>>): (r: seq<EventStats>)
    requires |cols| == |xs|
    ensures |r| == |xs|
  {
    seq(|xs|, i requires 0 <= i < |xs| => EventStatsOf(np, k, xs[i], cols[i]))
  }

  /** The totals over all records; the global threshold is the record threshold times their number. */
  function GlobalStatsOf(np: Numpy, k: Kind, xs: seq<McRecord>, totals: seq<int>): GlobalStats
  {
    var a := Reals(totals);
    GlobalStats(TotalName(k), SumBy(xs, RecordNominal) as real, np.mean(a), np.std(a),
      np.percentile(a, 50.0), np.percentile(a, 90.0), np.percentile(a, 95.0),
      np.mean(AtLeast(a, (HighThreshold(k) * |xs|) as real)))
  }

  /** The result for no records: zero global statistics, no per-record ones, no histogram. */
  function EmptyResult(k: Kind, n: ParamValue): McResult
  {
    McResult(ModelType(k), n, [], Some(GlobalStats(EmptyName(k), 0.0, 0.0, 0.0, 0.0, 0.0, 0.0, 0.0)), None, [])
  }

  /** `if n_samples is None: n_samples = self.n_samples`, 2000 for the registered model. */
  function ResolveSamples(v: ParamValue): ParamValue
  {
    if v.PNone? then PInt(2000) else v
  }

  /** The iterations of `range(v)`: an int or a bool; anything else raises TypeError. */
  function Iterations(v: ParamValue): Option<nat>
  {
    match v
    case PInt(i) => Some(if i < 0 then 0 else i)
    case PBool(b) => Some(if b then 1 else 0)
    case _ => None
  }

  /**
   * `run_risk_matrix` or `run_fmea` on the mission's records; None where it raises. Every
   * statistic is taken over the `it` samples of a record or of the totals, and
   * `np.percentile` of an empty array raises IndexError, so no iterations is a failure.
   */
  function Simulate(np: Numpy, k: Kind, st: Stream, d: nat, xs: seq<McRecord>, n: ParamValue): (r: Option<McResult>)
    ensures xs == [] ==> r == Some(EmptyResult(k, ResolveSamples(n)))
    ensures r.None? <==> xs != [] && (Iterations(ResolveSamples(n)).None? || Iterations(ResolveSamples(n)) == Some(0))
    ensures r.Some? && xs != [] ==>
      && |r.value.eventStats| == |xs|
      && |r.value.histogram| == Iterations(ResolveSamples(n)).value > 0
      && r.value.globalStats.Some? && r.value.ahpStats.None?
  {
    var nv := ResolveSamples(n);
    if xs == [] then Some(EmptyResult(k, nv))
    else
      var it := Iterations(nv);
      if it.None? || it.value == 0 then None
      else
        var rs := Rounds(st, d, xs, it.value);
        var totals := Totals(rs);
        Some(McResult(ModelType(k), nv, StatsList(np, k, xs, Columns(rs, |xs|)),
          Some(GlobalStatsOf(np, k, xs, totals)), None, Reals(totals)))
  }

  /** The draws a run takes: none without records, `RoundDraws(xs)` per iteration otherwise. */
  function SimulationDraws(xs: seq<McRecord>, n: ParamValue): nat
  {
    var it := Iterations(ResolveSamples(n));
    if xs == [] || it.None? then 0 else it.value * RoundDraws(xs)
  }

  /** The statistics loop: one `MCEventStats` per record, in record order. */
  method CollectStats(np: Numpy, k: Kind, xs: seq<McRecord>, samples: seq<seq<int>>) returns (stats: seq<EventStats>)
    requires |samples| == |xs|
    ensures stats == StatsList(np, k, xs, samples)
  {
    stats := [];
    var i := 0;
    while i < |xs|
      invariant i <= |xs|
      invariant |stats| == i && forall j :: 0 <= j < i ==> stats[j] == EventStatsOf(np, k, xs[j], samples[j])
    {
      var a := Reals(samples[i]);
      var x := xs[i];
      stats := stats + [EventStats(x.id, x.name, NominalOf(x.factors), np.mean(a), np.std(a),
        np.percentile(a, 50.0), np.percentile(a, 90.0), np.percentile(a, 95.0),
        np.mean(AtLeast(a, HighThreshold(k) as real)))];
      i := i + 1;
    }
  }

  /** The body shared by `run_risk_matrix` and `run_fmea`. */
  method Simulation(rng: Rng, np: Numpy, k: Kind, xs: seq<McRecord>, n: ParamValue) returns (r: Option<McResult>)
    modifies rng
    ensures r == Simulate(np, k, old(rng.stream), old(rng.drawn), xs, n)
    ensures rng.stream == old(rng.stream) && rng.drawn == old(rng.drawn) + SimulationDraws(xs, n)
  {
    var nv := ResolveSamples(n);
    if xs == [] {
      return Some(EmptyResult(k, nv));
    }
    var it := Iterations(nv);
    if it.None? || it.value == 0 {
      return None;
    }
    var samples, totals := SampleRounds(rng, xs, it.value);
    var stats := CollectStats(np, k, xs, samples);
    var a := Reals(totals);
    var global := GlobalStats(TotalName(k), SumBy(xs, RecordNominal) as real, np.mean(a), np.std(a),
      np.percentile(a, 50.0), np.percentile(a, 90.0), np.percentile(a, 95.0),
      np.mean(AtLeast(a, (HighThreshold(k) * |xs|) as real)));
    r := Some(McResult(ModelType(k), nv, stats, Some(global), None, a));
  }

  /** `run_risk_matrix`: the mission's risk events, two draws (L, S) each per iteration. */
  method RunRiskMatrix(rng: Rng, np: Numpy, events: seq<RiskEvent>, n: ParamValue) returns (r: Option<McResult>)
    modifies rng
    ensures r == Simulate(np, RiskMatrixKind, old(rng.stream), old(rng.drawn), EventRecords(events), n)
    ensures rng.stream == old(rng.stream) && rng.drawn == old(rng.drawn) + SimulationDraws(EventRecords(events), n)
  {
    r := Simulation(rng, np, RiskMatrixKind, EventRecords(events), n);
  }

  /** `run_fmea`: the mission's FMEA items, three draws (S, O, D) each per iteration. */
  method RunFmea(rng: Rng, np: Numpy, items: seq<FmeaItem>, n: ParamValue) returns (r: Option<McResult>)
    modifies rng
    ensures r == Simulate(np, FmeaKind, old(rng.stream), old(rng.drawn), ItemRecords(items), n)
    ensures rng.stream == old(rng.stream) && rng.drawn == old(rng.drawn) + SimulationDraws(ItemRecords(items), n)
  {
    r := Simulation(rng, np, FmeaKind, ItemRecords(items), n);
  }

  /** The mean of a 0/1 array is the fraction of samples at or above the threshold. */
  lemma {:induction false} AtLeastSum(s: seq<real>, threshold: real)
    ensures SumReals(AtLeast(s, threshold)) == CountBy(s, Above(threshold)) as real
    decreases |s|
  {
    if s != [] {
      var p := s[..|s| - 1];
      AtLeastSum(p, threshold);
      assert AtLeast(s, threshold)[..|s| - 1] == AtLeast(p, threshold);
    }
  }

  lemma ProbHighIsFraction(np: Numpy, s: seq<real>, threshold: real)
    requires MeanIsAverage(np) && |s| > 0
    ensures np.mean(AtLeast(s, threshold)) == CountBy(s, Above(threshold)) as real / |s| as real
  {
    AtLeastSum(s, threshold);
  }

  /**
   * The statistics of a run with records: each record's `prob_high` is the fraction of its
   * samples at or above 10 (R) or 300 (RPN), the global one the fraction of totals at or
   * above that threshold times the number of records, and the nominal value is Σ L·S or
   * Σ S·O·D.
   */
  lemma SimulateStats(np: Numpy, k: Kind, st: Stream, d: nat, xs: seq<McRecord>, n: ParamValue)
    requires MeanIsAverage(np) && xs != []
    requires Iterations(ResolveSamples(n)).Some? && Iterations(ResolveSamples(n)).value > 0
    ensures var it := Iterations(ResolveSamples(n)).value;
      var rs := Rounds(st, d, xs, it);
      var r := Simulate(np, k, st, d, xs, n).value;
      var g := r.globalStats.value;
      && (forall j :: 0 <= j < |xs| ==>
            r.eventStats[j].probHigh ==
              CountBy(Reals(Column(rs, j)), Above(HighThreshold(k) as real)) as real / it as real)
      && g.probHigh == CountBy(Reals(Totals(rs)), Above((HighThreshold(k) * |xs|) as real)) as real / it as real
      && g.nominalValue == SumBy(xs, RecordNominal) as real
  {
    var it := Iterations(ResolveSamples(n)).value;
    var rs := Rounds(st, d, xs, it);
    var cols := Columns(rs, |xs|);
    var r := Simulate(np, k, st, d, xs, n).value;
    assert r.eventStats == StatsList(np, k, xs, cols);
    assert r.globalStats.value == GlobalStatsOf(np, k, xs, Totals(rs));
    forall j | 0 <= j < |xs|
      ensures r.eventStats[j].probHigh ==
              CountBy(Reals(Column(rs, j)), Above(HighThreshold(k) as real)) as real / it as real
    {
      assert r.eventStats[j] == EventStatsOf(np, k, xs[j], cols[j]);
      ProbHighIsFraction(np, Reals(Column(rs, j)), HighThreshold(k) as real);
    }
    ProbHighIsFraction(np, Reals(Totals(rs)), (HighThreshold(k) * |xs|) as real);
  }

  /** When every draw picks the nominal, every iteration's total is the nominal value. */
  lemma NominalTotals(st: Stream, d: nat, xs: seq<McRecord>, n: nat)
    requires forall i :: st.pick(i) == 0
    ensures forall t :: 0 <= t < n ==> Totals(Rounds(st, d, xs, n))[t] == SumBy(xs, RecordNominal)
  {
    forall t | 0 <= t < n
      ensures Totals(Rounds(st, d, xs, n))[t] == SumBy(xs, RecordNominal)
    {
      RoundsAt(st, d, xs, n, t);
      RoundAtNominal(st, RoundStart(d, xs, t), xs);
      NominalsTotal(xs);
    }
  }

  /** Records of one kind, as the two runs build them. */
  predicate OfKind(xs: seq<McRecord>, k: Kind)
  {
    forall j :: 0 <= j < |xs| ==> (xs[j].factors.LS? <==> k == RiskMatrixKind)
  }

  function MaxSample(k: Kind): int
  {
    if k == RiskMatrixKind then 25 else 1000
  }

  /**
   * With every nominal factor on its scale, every sample of a record lies in [1, 25] (R)
   * or [1, 1000] (RPN), and every total between the number of records and that many
   * times the largest sample.
   */
  lemma SampleBounds(k: Kind, st: Stream, d: nat, xs: seq<McRecord>, n: nat)
    requires OfKind(xs, k) && forall j :: 0 <= j < |xs| ==> InScale(xs[j].factors)
    ensures var rs := Rounds(st, d, xs, n);
      && (forall j, t :: 0 <= j < |xs| && 0 <= t < n ==> 1 <= Columns(rs, |xs|)[j][t] <= MaxSample(k))
      && (forall t :: 0 <= t < n ==> |xs| <= Totals(rs)[t] <= MaxSample(k) * |xs|)
  {
    var rs := Rounds(st, d, xs, n);
    forall t | 0 <= t < n
      ensures |rs[t]| == |xs| && forall j :: 0 <= j < |xs| ==> 1 <= rs[t][j] <= MaxSample(k)
    {
      RoundsAt(st, d, xs, n, t);
      RoundBounds(st, RoundStart(d, xs, t), xs);
    }
    forall j, t | 0 <= j < |xs| && 0 <= t < n
      ensures 1 <= Columns(rs, |xs|)[j][t] <= MaxSample(k)
    {
      assert Columns(rs, |xs|)[j][t] == rs[t][j];
    }
    forall t | 0 <= t < n
      ensures |xs| <= Totals(rs)[t] <= MaxSample(k) * |xs|
    {
      TotalBounds(rs[t], MaxSample(k));
    }
  }

  /** The two runs' records: risk events sample L·S, FMEA items S·O·D. */
  lemma RecordsOfKind(events: seq<RiskEvent>, items: seq<FmeaItem>)
    ensures OfKind(EventRecords(events), RiskMatrixKind) && OfKind(ItemRecords(items), FmeaKind)
    ensures (forall j :: 0 <= j < |events| ==> RecordNominal(EventRecords(events)[j]) == events[j].likelihood * events[j].severity)
    ensures (forall j :: 0 <= j < |items| ==> RecordNominal(ItemRecords(items)[j]) == items[j].s * items[j].o * items[j].d)
    ensures RoundDraws(EventRecords(events)) == 2 * |events| && RoundDraws(ItemRecords(items)) == 3 * |items|
  {
    EventDraws(EventRecords(events));
    ItemDraws(ItemRecords(items));
  }

  lemma {:induction false} EventDraws(xs: seq<McRecord>)
    requires forall j :: 0 <= j < |xs| ==> xs[j].factors.LS?
    ensures RoundDraws(xs) == 2 * |xs|
    decreases |xs|
  {
    if xs != [] {
      EventDraws(xs[..|xs| - 1]);
    }
  }

  lemma {:induction false} ItemDraws(xs: seq<McRecord>)
    requires forall j :: 0 <= j < |xs| ==> xs[j].factors.SOD?
    ensures RoundDraws(xs) == 3 * |xs|
    decreases |xs|
  {
    if xs != [] {
      ItemDraws(xs[..|xs| - 1]);
    }
  }

  // ---------------------------------------------------------------------------
  // _sample_by_distribution: the distribution an indicator of the data set is drawn from.

  /** What numpy is asked for: a continuous variate, or `choice` over values with probabilities. */
  datatype Draw = Continuous(v: Variate) | Choose(values: seq<real>, probs: seq<real>)

  /** A request numpy accepts. */
  predicate Drawable(d: Draw)
  {
    match d
    case Continuous(v) => ValidVariate(v)
    case Choose(values, probs) => |values| == |probs| && ValidProbabilities(probs)
  }

  /** The value the k-th draw gives for a request. */
  function Sampled(st: Stream, k: nat, d: Draw): real
    requires Drawable(d)
  {
    match d
    case Continuous(v) => st.variate(k, v)
    case Choose(values, probs) => values[st.pick(k) % |probs|]
  }

  /** Python truthiness of a JSON value (`if not dist_params`). */
  predicate JsonTruthy(j: Json)
  {
    match j
    case JNull => false
    case JBool(b) => b
    case JInt(i) => i != 0
    case JReal(r) => r != 0.0
    case JStr(t) => t != []
    case JArr(items) => items != []
    case JObj(fields) => fields != []
  }

  /** `len(v)`: text, arrays and objects have one; anything else raises TypeError. */
  function PyLen(j: Json): Option<nat>
  {
    match j
    case JStr(t) => Some(|t|)
    case JArr(items) => Some(|items|)
    case JObj(fields) => Some(|fields|)
    case _ => None
  }

  /** `params.get(k, default)` used as a number; None where `.get` or the arithmetic raises. */
  function GetNumber(p: Json, k: string, default: Json): Option<real>
  {
    var v := GetOr(p, k, default);
    if v.None? then None else JsonNumber(v.value)
  }

  lemma {:induction false} NormalizedSum(p: seq<real>, total: real)
    requires total != 0.0
    ensures SumReals(Normalized(p, total)) == SumReals(p) / total
    decreases |p|
  {
    if p != [] {
      var n := |p| - 1;
      NormalizedSum(p[..n], total);
      assert Normalized(p, total)[..n] == Normalized(p[..n], total);
      DivAdd(SumReals(p[..n]), p[n], total);
    }
  }

  /**
   * `choice(values, p=probs / sum(probs))`: numpy raises for a zero total (NaN
   * probabilities) and for a negative normalised probability.
   */
  function ChoiceOf(vs: seq<real>, ps: seq<real>): (r: Option<Draw>)
    requires |vs| == |ps| > 0
    ensures r.Some? ==> SumReals(ps) != 0.0 && Drawable(r.value) && r.value == Choose(vs, Normalized(ps, SumReals(ps)))
  {
    var total := SumReals(ps);
    if total == 0.0 then None
    else
      var q := Normalized(ps, total);
      if exists i :: 0 <= i < |q| && q[i] < 0.0 then None
      else
        NormalizedSum(ps, total);
        DivSelf(total, total);
        assert ValidProbabilities(q);
        Some(Choose(vs, q))
  }

  /**
   * The discrete branch, with uniform probabilities when the lengths differ. It raises
   * for values or probabilities without a length and for no values (ZeroDivisionError,
   * or an empty `choice`).
   */
  function DiscreteDraw(values: Json, probs: Json): (r: Option<Draw>)
    ensures r.Some? ==> Drawable(r.value)
    ensures r.Some? ==> values.JArr? && r.value.Choose? && Numbers(values.items) == Some(r.value.values)
  {
    var lv := PyLen(values);
    var lp := PyLen(probs);
    if lv.None? || lp.None? || lv.value == 0 || !values.JArr? then None
    else
      var vs := Numbers(values.items);
      var ps := if lp.value != lv.value then Some(Common.Uniform(lv.value)) else if probs.JArr? then Numbers(probs.items) else None;
      if vs.None? || ps.None? then None
      else ChoiceOf(vs.value, ps.value)
  }

  /** A sequence of equal terms sums to their number times the term. */
  lemma {:induction false} ConstantSum(s: seq<real>, c: real)
    requires forall i :: 0 <= i < |s| ==> s[i] == c
    ensures SumReals(s) == |s| as real * c
    decreases |s|
  {
    if s != [] {
      var n := |s| - 1;
      assert forall i :: 0 <= i < n ==> s[..n][i] == s[i];
      ConstantSum(s[..n], c);
      assert (n + 1) as real * c == n as real * c + c;
    }
  }

  /** Uniform probabilities are kept as they are: each value is drawn with probability 1/n. */
  lemma UniformChoice(vs: seq<real>)
    requires vs != []
    ensures var r := ChoiceOf(vs, Common.Uniform(|vs|));
      && r.Some? && r.value.values == vs
      && |r.value.probs| == |vs| && forall i :: 0 <= i < |vs| ==> r.value.probs[i] == 1.0 / |vs| as real
  {
    var n := |vs|;
    var u := Common.Uniform(n);
    ConstantSum(u, 1.0 / n as real);
    assert SumReals(u) == 1.0;
    NormalizedSum(u, 1.0);
    var q := Normalized(u, 1.0);
    assert forall i :: 0 <= i < n ==> q[i] == 1.0 / n as real;
  }

  /**
   * Probabilities of a length other than the values' make every value equally likely:
   * each is drawn with probability 1/n.
   */
  lemma MismatchedProbabilities(vs: seq<Json>, probs: Json)
    requires vs != [] && Numbers(vs).Some? && PyLen(probs).Some? && PyLen(probs) != Some(|vs|)
    ensures var r := DiscreteDraw(JArr(vs), probs);
      && r.Some? && r.value.values == Numbers(vs).value
      && |r.value.probs| == |vs| && forall i :: 0 <= i < |vs| ==> r.value.probs[i] == 1.0 / |vs| as real
  {
    var xs := Numbers(vs).value;
    UniformChoice(xs);
    assert DiscreteDraw(JArr(vs), probs) == ChoiceOf(xs, Common.Uniform(|vs|));
  }

  /**
   * `_sample_by_distribution(dist_type, params, default_value)`: the request for one of
   * normal, lognormal, uniform, triangular or discrete, each parameter taken from `params`
   * with a default derived from `default_value`; any other type gives the ±10% normal.
   * None where Python or numpy raises: `params` is not an object, a parameter or the
   * default is not a number, a deviation is negative, or the triangle is degenerate.
   */
  function SampleRequest(tr: Transcendentals, distType: Json, p: Json, d: Json): (r: Option<Draw>)
    ensures r.Some? ==> Drawable(r.value)
  {
    var x := JsonNumber(d);
    if distType == JStr("normal") then
      if x.None? then None
      else
        var mu := GetNumber(p, "mu", d);
        var sigma := GetNumber(p, "sigma", JReal(Ahp.DefaultSigma(x.value, 0.1)));
        if mu.None? || sigma.None? || sigma.value < 0.0 then None
        else Some(Continuous(Normal(mu.value, sigma.value)))
    else if distType == JStr("lognormal") then
      if x.None? then None
      else
        var mu := GetNumber(p, "mu", JReal(tr.log(MaxReal(0.000001, x.value))));
        var sigma := GetNumber(p, "sigma", JReal(0.5));
        if mu.None? || sigma.None? || sigma.value < 0.0 then None
        else Some(Continuous(LogNormal(mu.value, sigma.value)))
    else if distType == JStr("uniform") then
      if x.None? then None
      else
        var low := GetNumber(p, "low", JReal(x.value * 0.8));
        var high := GetNumber(p, "high", JReal(x.value * 1.2));
        if low.None? || high.None? then None
        else Some(Continuous(Uniform(low.value, high.value)))
    else if distType == JStr("triangular") then
      if x.None? then None
      else
        var low := GetNumber(p, "low", JReal(x.value * 0.8));
        var mode := GetNumber(p, "mode", d);
        var high := GetNumber(p, "high", JReal(x.value * 1.2));
        if low.None? || mode.None? || high.None? then None
        else if low.value > mode.value || mode.value > high.value || low.value == high.value then None
        else Some(Continuous(Triangular(low.value, mode.value, high.value)))
    else if distType == JStr("discrete") then
      var values := GetOr(p, "values", JArr([d]));
      var probs := GetOr(p, "probs", JArr([JReal(1.0)]));
      if values.None? || probs.None? then None
      else DiscreteDraw(values.value, probs.value)
    else
      if x.None? then None
      else Some(Continuous(Normal(x.value, Ahp.DefaultSigma(x.value, 0.1))))
  }

  /**
   * The triangular defaults `(0.8·v, v, 1.2·v)` are a triangle only for a positive value:
   * for a value at or below zero numpy rejects them.
   */
  lemma TriangularDefaults(tr: Transcendentals, d: real)
    ensures SampleRequest(tr, JStr("triangular"), JObj([]), JReal(d)) ==
      if d > 0.0 then Some(Continuous(Triangular(d * 0.8, d, d * 1.2))) else None
  {
  }

  /** An unknown distribution type draws from N(v, max(1e-6, 0.1·|v|)), ignoring `params`. */
  lemma UnknownTypeIsNormal(tr: Transcendentals, distType: Json, p: Json, d: real)
    requires distType !in {JStr("normal"), JStr("lognormal"), JStr("uniform"), JStr("triangular"), JStr("discrete")}
    ensures SampleRequest(tr, distType, p, JReal(d)) == Some(Continuous(Normal(d, Ahp.DefaultSigma(d, 0.1))))
  {
  }

  /** A key that no field carries is not found. */
  lemma {:induction false} LookupAbsent(fields: seq<(string, Json)>, k: string)
    requires k !in FieldKeys(fields)
    ensures Lookup(fields, k).None?
    decreases |fields|
  {
    if fields != [] {
      assert FieldKeys(fields) == [fields[0].0] + FieldKeys(fields[1..]);
      LookupAbsent(fields[1..], k);
    }
  }

  /**
   * The request for one indicator: `ind["value"]` is required; `dist_params` that are
   * missing or falsy are replaced by `{"mu": mu or value, "sigma": sigma or 1.0}`.
   */
  function IndicatorDraw(tr: Transcendentals, ind: Json): (r: Option<Draw>)
    ensures r.Some? ==> Drawable(r.value) && ind.JObj? && Lookup(ind.fields, "value").Some?
  {
    if !ind.JObj? then None
    else
      var value := Lookup(ind.fields, "value");
      if value.None? then None
      else
        var distType := LookupOr(ind.fields, "distribution_type", JStr("normal"));
        var given := LookupOr(ind.fields, "dist_params", JObj([]));
        var p := if JsonTruthy(given) then given
          else JObj([("mu", LookupOr(ind.fields, "mu", value.value)), ("sigma", LookupOr(ind.fields, "sigma", JReal(1.0)))]);
        SampleRequest(tr, distType, p, value.value)
  }

  /**
   * An indicator with a numeric value and no distribution data is drawn from N(value, 1):
   * the filled-in deviation 1.0 replaces the ±10% default of the normal branch.
   */
  lemma BareIndicatorDraw(tr: Transcendentals, fields: seq<(string, Json)>, x: real)
    requires Lookup(fields, "value") == Some(JReal(x))
    requires forall k :: k in ["distribution_type", "dist_params", "mu", "sigma"] ==> k !in FieldKeys(fields)
    ensures IndicatorDraw(tr, JObj(fields)) == Some(Continuous(Normal(x, 1.0)))
  {
    LookupAbsent(fields, "distribution_type");
    LookupAbsent(fields, "dist_params");
    LookupAbsent(fields, "mu");
    LookupAbsent(fields, "sigma");
    var p := JObj([("mu", JReal(x)), ("sigma", JReal(1.0))]);
    assert p.fields[1..] == [("sigma", JReal(1.0))];
    assert Lookup(p.fields, "mu") == Some(JReal(x));
    assert Lookup(p.fields[1..], "sigma") == Some(JReal(1.0));
    assert Lookup(p.fields, "sigma") == Some(JReal(1.0));
  }

  /** `_sample_by_distribution`: one draw from the requested distribution. */
  method SampleByDistribution(rng: Rng, tr: Transcendentals, distType: Json, p: Json, d: Json) returns (x: Option<real>)
    modifies rng
    ensures var req := SampleRequest(tr, distType, p, d);
      x == if req.None? then None else Some(Sampled(old(rng.stream), old(rng.drawn), req.value))
    ensures rng.stream == old(rng.stream) && rng.drawn == old(rng.drawn) + (if x.None? then 0 else 1)
  {
    var req := SampleRequest(tr, distType, p, d);
    if req.None? {
      return None;
    }
    match req.value
    case Continuous(v) =>
      var y := rng.Draw(v);
      x := Some(y);
    case Choose(values, probs) =>
      var i := rng.Choice(probs);
      x := Some(values[i]);
  }

  // ---------------------------------------------------------------------------
  // _calc_ahp_score: the simplified AHP score of a list of indicators.

  /** `ind.get("weight", 1.0)` as a number; None where `.get` or the sum raises. */
  function WeightOf(ind: Json): Option<real>
  {
    if ind.JObj? then JsonNumber(LookupOr(ind.fields, "weight", JReal(1.0))) else None
  }

  /** The weights of `sum(ind.get("weight", 1.0) for ind in indicators)`; None where the sum raises. */
  function Weights(inds: seq<Json>): Option<seq<real>>
  {
    if inds == [] then Some([])
    else
      var n := |inds| - 1;
      var init := Weights(inds[..n]);
      var w := WeightOf(inds[n]);
      if init.None? || w.None? then None else Some(init.value + [w.value])
  }

  /** The weights exist exactly when every indicator's does, and are those, in order. */
  lemma {:induction false} WeightsFacts(inds: seq<Json>)
    ensures var r := Weights(inds);
      && (r.Some? <==> forall i :: 0 <= i < |inds| ==> WeightOf(inds[i]).Some?)
      && (r.Some? ==> |r.value| == |inds| && forall i :: 0 <= i < |inds| ==> WeightOf(inds[i]) == Some(r.value[i]))
    decreases |inds|
  {
    if inds != [] {
      var n := |inds| - 1;
      assert forall i :: 0 <= i < n ==> inds[..n][i] == inds[i];
      WeightsFacts(inds[..n]);
    }
  }

  /** One entry of `results`: the normalised weight, the correction factor and the z-score. */
  datatype Term = Term(w: real, c: real, z: real)

  /**
   * The first loop for one indicator: x = value (default 0), w = weight / total, μ
   * defaulting to x and σ to max(1e-6, 0.1·|x|), floored at 1e-10; None where a value
   * used in the arithmetic is not a number.
   */
  function TermOf(tr: Transcendentals, total: real, ind: Json): Option<Term>
    requires total != 0.0
  {
    if !ind.JObj? then None
    else
      var xj := LookupOr(ind.fields, "value", JInt(0));
      var x := JsonNumber(xj);
      var w := WeightOf(ind);
      if x.None? || w.None? then None
      else
        var mu := JsonNumber(LookupOr(ind.fields, "mu", xj));
        var sigma := JsonNumber(LookupOr(ind.fields, "sigma", JReal(Ahp.DefaultSigma(x.value, 0.1))));
        if mu.None? || sigma.None? then None
        else
          var s := Ahp.SigmaFloor(sigma.value);
          var z := (x.value - mu.value) / s;
          Some(Term(w.value / total, Ahp.Density(tr, s, z), z))
  }

  function Terms(tr: Transcendentals, total: real, inds: seq<Json>): Option<seq<Term>>
    requires total != 0.0
  {
    if inds == [] then Some([])
    else
      var n := |inds| - 1;
      var init := Terms(tr, total, inds[..n]);
      var t := TermOf(tr, total, inds[n]);
      if init.None? || t.None? then None else Some(init.value + [t.value])
  }

  /** The terms exist exactly when every indicator's does, and are those, in order. */
  lemma {:induction false} TermsFacts(tr: Transcendentals, total: real, inds: seq<Json>)
    requires total != 0.0
    ensures var r := Terms(tr, total, inds);
      && (r.Some? <==> forall i :: 0 <= i < |inds| ==> TermOf(tr, total, inds[i]).Some?)
      && (r.Some? ==> |r.value| == |inds| && forall i :: 0 <= i < |inds| ==> TermOf(tr, total, inds[i]) == Some(r.value[i]))
    decreases |inds|
  {
    if inds != [] {
      var n := |inds| - 1;
      var init, t := Terms(tr, total, inds[..n]), TermOf(tr, total, inds[n]);
      TermsFacts(tr, total, inds[..n]);
      assert forall i :: 0 <= i < n ==> inds[..n][i] == inds[i];
      if init.Some? && t.Some? {
        var r := init.value + [t.value];
        forall i | 0 <= i < |inds|
          ensures TermOf(tr, total, inds[i]) == Some(r[i])
        {
          if i < n {
            assert TermOf(tr, total, inds[..n][i]) == Some(init.value[i]);
          }
        }
      }
    }
  }

  /** A term's contribution w·c to `weight_correction_sum`. */
  function Contribution(t: Term): real
  {
    t.w * t.c
  }

  /** A term whose contribution to the correction sum is non-negative. */
  predicate NonNegativeTerm(t: Term)
  {
    Contribution(t) >= 0.0
  }

  /** `weight_correction_sum`: Σ w·c. */
  function WeightCorrection(ts: seq<Term>): real
  {
    if ts == [] then 0.0 else WeightCorrection(ts[..|ts| - 1]) + Contribution(ts[|ts| - 1])
  }

  /** w' = w·c / Σ w·c when that sum is positive, else 1/n. */
  function CorrectedWeight(t: Term, wcs: real, n: nat): real
    requires n > 0
  {
    if wcs > 0.0 then Contribution(t) / wcs else 1.0 / n as real
  }

  /** The corrected weights w', in order. */
  function Shares(ts: seq<Term>, wcs: real, n: nat): (r: seq<real>)
    requires n > 0
    ensures |r| == |ts|
  {
    seq(|ts|, i requires 0 <= i < |ts| => CorrectedWeight(ts[i], wcs, n))
  }

  /** The sigmoid mappings σ(z), in order. */
  function Risks(tr: Transcendentals, ts: seq<Term>): (r: seq<real>)
    ensures |r| == |ts|
  {
    seq(|ts|, i requires 0 <= i < |ts| => Sigmoid(tr, ts[i].z))
  }

  /** Σ a[i]·b[i]. */
  function Dot(a: seq<real>, b: seq<real>): real
    requires |a| == |b|
  {
    if a == [] then 0.0 else Dot(a[..|a| - 1], b[..|b| - 1]) + a[|a| - 1] * b[|b| - 1]
  }

  /** The second loop: Σ w'·σ(z). */
  function ScoreSum(tr: Transcendentals, ts: seq<Term>, wcs: real, n: nat): real
    requires n > 0
  {
    Dot(Shares(ts, wcs, n), Risks(tr, ts))
  }

  /** The total weight after `if total_weight == 0: total_weight = len(indicators)`. */
  function TotalWeight(ws: seq<real>, n: nat): real
  {
    if SumReals(ws) == 0.0 then n as real else SumReals(ws)
  }

  /** `_calc_ahp_score(indicators)`: 0 for no indicators; None where it raises. */
  function AhpScore(tr: Transcendentals, inds: seq<Json>): Option<real>
  {
    if inds == [] then Some(0.0)
    else
      var ws := Weights(inds);
      if ws.None? then None
      else
        var total := TotalWeight(ws.value, |inds|);
        var ts := Terms(tr, total, inds);
        if ts.None? then None
        else Some(ScoreSum(tr, ts.value, WeightCorrection(ts.value), |inds|))
  }

  /** `_calc_ahp_score`: the weight sum, then the two loops over the indicators. */
  method CalcAhpScore(tr: Transcendentals, inds: seq<Json>) returns (r: Option<real>)
    ensures r == AhpScore(tr, inds)
  {
    if inds == [] {
      return Some(0.0);
    }
    var sum := SumWeights(inds);
    if sum.None? {
      return None;
    }
    var total := sum.value;
    if total == 0.0 {
      total := |inds| as real;
    }
    var terms := CollectTerms(tr, total, inds);
    if terms.None? {
      return None;
    }
    var ts, wcs := terms.value.0, terms.value.1;
    var score := SumScores(tr, ts, wcs, |inds|);
    r := Some(score);
  }

  /** `sum(ind.get("weight", 1.0) for ind in indicators)`; None where it raises. */
  method SumWeights(inds: seq<Json>) returns (total: Option<real>)
    ensures total == if Weights(inds).None? then None else Some(SumReals(Weights(inds).value))
  {
    var sum := 0.0;
    ghost var ws: seq<real> := [];
    var i := 0;
    while i < |inds|
      invariant i <= |inds|
      invariant Weights(inds[..i]) == Some(ws) && sum == SumReals(ws)
    {
      assert inds[..i + 1][..i] == inds[..i];
      var w := WeightOf(inds[i]);
      if w.None? {
        WeightsFacts(inds);
        return None;
      }
      SumRealsAppend(ws, w.value);
      ws := ws + [w.value];
      sum := sum + w.value;
      i := i + 1;
    }
    assert inds[..|inds|] == inds;
    total := Some(sum);
  }

  lemma TermsSnoc(tr: Transcendentals, total: real, inds: seq<Json>, i: nat)
    requires total != 0.0 && i < |inds|
    ensures var init, t := Terms(tr, total, inds[..i]), TermOf(tr, total, inds[i]);
      Terms(tr, total, inds[..i + 1]) == if init.None? || t.None? then None else Some(init.value + [t.value])
  {
    assert inds[..i + 1][..i] == inds[..i];
  }

  /** One indicator without a term leaves the whole list without terms. */
  lemma TermsNoneAt(tr: Transcendentals, total: real, inds: seq<Json>, i: nat)
    requires total != 0.0 && i < |inds| && TermOf(tr, total, inds[i]).None?
    ensures Terms(tr, total, inds).None?
  {
    TermsFacts(tr, total, inds);
  }

  lemma WeightCorrectionSnoc(ts: seq<Term>, t: Term)
    ensures WeightCorrection(ts + [t]) == WeightCorrection(ts) + Contribution(t)
  {
    assert (ts + [t])[..|ts|] == ts;
  }

  /** The first loop: the terms and `weight_correction_sum`; None where it raises. */
  method CollectTerms(tr: Transcendentals, total: real, inds: seq<Json>) returns (r: Option<(seq<Term>, real)>)
    requires total != 0.0
    ensures var ts := Terms(tr, total, inds);
      r == if ts.None? then None else Some((ts.value, WeightCorrection(ts.value)))
  {
    var ts: seq<Term> := [];
    var wcs := 0.0;
    var i := 0;
    while i < |inds|
      invariant i <= |inds|
      invariant Terms(tr, total, inds[..i]) == Some(ts) && wcs == WeightCorrection(ts)
    {
      TermsSnoc(tr, total, inds, i);
      var t := TermOf(tr, total, inds[i]);
      if t.None? {
        TermsNoneAt(tr, total, inds, i);
        return None;
      }
      WeightCorrectionSnoc(ts, t.value);
      ts := ts + [t.value];
      wcs := wcs + Contribution(t.value);
      i := i + 1;
    }
    assert inds[..|inds|] == inds;
    r := Some((ts, wcs));
  }

  /** The second loop: Σ w'·σ(z). */
  method SumScores(tr: Transcendentals, ts: seq<Term>, wcs: real, n: nat) returns (score: real)
    requires n > 0
    ensures score == ScoreSum(tr, ts, wcs, n)
  {
    score := 0.0;
    var i := 0;
    while i < |ts|
      invariant i <= |ts|
      invariant score == ScoreSum(tr, ts[..i], wcs, n)
    {
      assert ts[..i + 1][..i] == ts[..i];
      assert Shares(ts[..i + 1], wcs, n)[..i] == Shares(ts[..i], wcs, n);
      assert Risks(tr, ts[..i + 1])[..i] == Risks(tr, ts[..i]);
      score := score + CorrectedWeight(ts[i], wcs, n) * Sigmoid(tr, ts[i].z);
      i := i + 1;
    }
    assert ts[..|ts|] == ts;
  }

  lemma {:induction false} CorrectedTotalRatio(ts: seq<Term>, wcs: real, n: nat)
    requires n > 0 && wcs > 0.0
    ensures SumReals(Shares(ts, wcs, n)) == WeightCorrection(ts) / wcs
    decreases |ts|
  {
    if ts != [] {
      var m := |ts| - 1;
      CorrectedTotalRatio(ts[..m], wcs, n);
      assert Shares(ts, wcs, n)[..m] == Shares(ts[..m], wcs, n);
      DivAdd(WeightCorrection(ts[..m]), Contribution(ts[m]), wcs);
    }
  }

  /** The fallback shares 1/n of n terms sum to 1. */
  lemma FallbackSharesSum(ts: seq<Term>, wcs: real)
    requires |ts| > 0 && wcs <= 0.0
    ensures SumReals(Shares(ts, wcs, |ts|)) == 1.0
  {
    var n := |ts| as real;
    var a := Shares(ts, wcs, |ts|);
    assert forall i :: 0 <= i < |a| ==> a[i] == 1.0 / n;
    ConstantSum(a, 1.0 / n);
    TimesInverse(n);
  }

  /** The corrected weights sum to 1 in both branches: the c-weighted one and the 1/n fallback. */
  lemma CorrectedWeightsSumToOne(ts: seq<Term>)
    requires |ts| > 0
    ensures SumReals(Shares(ts, WeightCorrection(ts), |ts|)) == 1.0
  {
    var wcs := WeightCorrection(ts);
    if wcs > 0.0 {
      CorrectedTotalRatio(ts, wcs, |ts|);
      DivSelf(wcs, wcs);
    } else {
      FallbackSharesSum(ts, wcs);
    }
  }

  lemma TimesInverse(n: real)
    requires n > 0.0
    ensures n * (1.0 / n) == 1.0
  {
  }

  lemma DivNonNegative(a: real, b: real)
    requires a >= 0.0 && b > 0.0
    ensures a / b >= 0.0
  {
  }

  lemma MulMonotone(w: real, a: real, b: real)
    requires w >= 0.0 && a <= b
    ensures w * a <= w * b
  {
  }

  /** Σ a[i]·b[i] with non-negative a[i] and every b[i] in [0, 1] lies in [0, Σ a]. */
  lemma {:induction false} DotUnit(a: seq<real>, b: seq<real>)
    requires |a| == |b|
    requires forall i :: 0 <= i < |a| ==> a[i] >= 0.0 && 0.0 <= b[i] <= 1.0
    ensures 0.0 <= Dot(a, b) <= SumReals(a)
    decreases |a|
  {
    if a != [] {
      var m := |a| - 1;
      DotUnit(a[..m], b[..m]);
      MulMonotone(a[m], 0.0, b[m]);
      MulMonotone(a[m], b[m], 1.0);
    }
  }

  /** Σ a[i]·b[i] with non-negative a[i] and every b[i] at least 1/2 is at least half of Σ a. */
  lemma {:induction false} DotHalf(a: seq<real>, b: seq<real>)
    requires |a| == |b|
    requires forall i :: 0 <= i < |a| ==> a[i] >= 0.0 && 0.5 <= b[i]
    ensures 0.5 * SumReals(a) <= Dot(a, b)
    decreases |a|
  {
    if a != [] {
      var m := |a| - 1;
      DotHalf(a[..m], b[..m]);
      MulMonotone(a[m], 0.5, b[m]);
    }
  }

  lemma {:induction false} SumRealsNonNegative(s: seq<real>)
    requires forall i :: 0 <= i < |s| ==> s[i] >= 0.0
    ensures SumReals(s) >= 0.0
    decreases |s|
  {
    if s != [] {
      var n := |s| - 1;
      assert forall i :: 0 <= i < n ==> s[..n][i] == s[i];
      SumRealsNonNegative(s[..n]);
    }
  }

  lemma {:induction false} WeightCorrectionNonNegative(ts: seq<Term>)
    requires forall i :: 0 <= i < |ts| ==> NonNegativeTerm(ts[i])
    ensures WeightCorrection(ts) >= 0.0
    decreases |ts|
  {
    if ts != [] {
      var n := |ts| - 1;
      assert forall i :: 0 <= i < n ==> ts[..n][i] == ts[i];
      WeightCorrectionNonNegative(ts[..n]);
    }
  }

  /** Every stored weight is a non-negative number. */
  predicate NonNegativeWeights(inds: seq<Json>)
  {
    forall i :: 0 <= i < |inds| ==> WeightOf(inds[i]).Some? ==> WeightOf(inds[i]).value >= 0.0
  }

  /** No indicator carries a `mu`, so it defaults to the indicator's own value. */
  predicate WithoutMu(inds: seq<Json>)
  {
    forall i :: 0 <= i < |inds| ==> inds[i].JObj? ==> Lookup(inds[i].fields, "mu").None?
  }

  /** One term: its weight share, a positive correction factor, and z = 0 when `mu` is absent. */
  lemma TermFacts(tr: Transcendentals, total: real, ind: Json)
    requires total != 0.0 && TermOf(tr, total, ind).Some?
    ensures var t := TermOf(tr, total, ind).value;
      && ind.JObj? && WeightOf(ind).Some? && t.w == WeightOf(ind).value / total
      && (Sound(tr) ==> t.c > 0.0)
      && (Lookup(ind.fields, "mu").None? ==> t.z == 0.0)
  {
    var xj := LookupOr(ind.fields, "value", JInt(0));
    var x := JsonNumber(xj).value;
    var sigma := JsonNumber(LookupOr(ind.fields, "sigma", JReal(Ahp.DefaultSigma(x, 0.1)))).value;
    var s := Ahp.SigmaFloor(sigma);
    if Sound(tr) {
      Ahp.DensityPositive(tr, s, TermOf(tr, total, ind).value.z);
    }
  }

  lemma MulNonNegative(a: real, b: real)
    requires a >= 0.0 && b >= 0.0
    ensures a * b >= 0.0
  {
  }

  /** A term of a non-negative weight over a positive total has a non-negative w·c. */
  lemma TermNonNegative(tr: Transcendentals, total: real, ind: Json, w: real, t: Term)
    requires Sound(tr) && total > 0.0 && TermOf(tr, total, ind) == Some(t)
    requires WeightOf(ind) == Some(w) && w >= 0.0
    ensures NonNegativeTerm(t)
  {
    TermFacts(tr, total, ind);
    DivNonNegative(w, total);
    MulNonNegative(t.w, t.c);
  }

  /** With non-negative weights every term has a non-negative w·c. */
  lemma TermsNonNegative(tr: Transcendentals, inds: seq<Json>, ts: seq<Term>)
    requires Sound(tr) && NonNegativeWeights(inds) && inds != [] && Weights(inds).Some?
    requires Terms(tr, TotalWeight(Weights(inds).value, |inds|), inds) == Some(ts)
    ensures forall i :: 0 <= i < |ts| ==> NonNegativeTerm(ts[i])
  {
    var ws := Weights(inds).value;
    WeightsFacts(inds);
    SumRealsNonNegative(ws);
    var total := TotalWeight(ws, |inds|);
    assert total > 0.0;
    TermsFacts(tr, total, inds);
    forall i | 0 <= i < |ts|
      ensures NonNegativeTerm(ts[i])
    {
      TermNonNegative(tr, total, inds[i], ws[i], ts[i]);
    }
  }

  /** Without `mu`, every z-score is (x - x) / σ = 0. */
  lemma TermsWithoutMu(tr: Transcendentals, total: real, inds: seq<Json>, ts: seq<Term>)
    requires total != 0.0 && WithoutMu(inds) && Terms(tr, total, inds) == Some(ts)
    ensures forall i :: 0 <= i < |ts| ==> ts[i].z == 0.0
  {
    TermsFacts(tr, total, inds);
    forall i | 0 <= i < |ts|
      ensures ts[i].z == 0.0
    {
      assert TermOf(tr, total, inds[i]) == Some(ts[i]);
      TermFacts(tr, total, inds[i]);
    }
  }

  /** Corrected weights of terms with non-negative w·c are non-negative. */
  lemma SharesNonNegative(ts: seq<Term>)
    requires |ts| > 0 && forall i :: 0 <= i < |ts| ==> NonNegativeTerm(ts[i])
    ensures forall i :: 0 <= i < |ts| ==> Shares(ts, WeightCorrection(ts), |ts|)[i] >= 0.0
  {
    WeightCorrectionNonNegative(ts);
  }

  /** Every sigmoid lies in [0, 1], and at 1/2 or above for z >= 0. */
  lemma RisksBounds(tr: Transcendentals, ts: seq<Term>)
    requires Sound(tr)
    ensures forall i :: 0 <= i < |ts| ==> 0.0 <= Risks(tr, ts)[i] <= 1.0 && (ts[i].z >= 0.0 ==> Risks(tr, ts)[i] >= 0.5)
  {
    forall i | 0 <= i < |ts|
      ensures 0.0 <= Risks(tr, ts)[i] <= 1.0 && (ts[i].z >= 0.0 ==> Risks(tr, ts)[i] >= 0.5)
    {
      SigmoidBounds(tr, ts[i].z);
    }
  }

  /**
   * With non-negative weights the score lies in [0, 1]; when no indicator carries a
   * `mu`, every z-score is 0 and the score is at least 0.5.
   */
  lemma AhpScoreBounds(tr: Transcendentals, inds: seq<Json>)
    requires Sound(tr) && NonNegativeWeights(inds) && inds != []
    requires AhpScore(tr, inds).Some?
    ensures 0.0 <= AhpScore(tr, inds).value <= 1.0
    ensures WithoutMu(inds) ==> AhpScore(tr, inds).value >= 0.5
  {
    var total := TotalWeight(Weights(inds).value, |inds|);
    var ts := Terms(tr, total, inds).value;
    TermsFacts(tr, total, inds);
    TermsNonNegative(tr, inds, ts);
    if WithoutMu(inds) {
      TermsWithoutMu(tr, total, inds, ts);
    }
    SharesNonNegative(ts);
    RisksBounds(tr, ts);
    var a, b := Shares(ts, WeightCorrection(ts), |ts|), Risks(tr, ts);
    CorrectedWeightsSumToOne(ts);
    DotUnit(a, b);
    if WithoutMu(inds) {
      DotHalf(a, b);
    }
  }

  // ---------------------------------------------------------------------------
  // run_ahp_score: the data set's indicators, resampled and rescored.

  /**
   * The indicator with its value replaced by the k-th draw (`ind.copy()`, then
   * `["value"] = x`). Requests exist only for objects and are drawable, so the last branch
   * is never taken in a run.
   */
  function Resampled(st: Stream, k: nat, ind: Json, d: Draw): Json
  {
    if ind.JObj? && Drawable(d) then JObj(SetField(ind.fields, "value", JReal(Sampled(st, k, d)))) else ind
  }

  /** The request of each indicator, in order. */
  function Requests(tr: Transcendentals, inds: seq<Json>): seq<Option<Draw>>
  {
    seq(|inds|, i requires 0 <= i < |inds| => IndicatorDraw(tr, inds[i]))
  }

  /**
   * One iteration's `sampled_indicators`, given the requests of the indicators: indicator
   * i takes the (k+i)-th draw; None where a request raises.
   */
  function SampledRound(st: Stream, k: nat, inds: seq<Json>, reqs: seq<Option<Draw>>): Option<seq<Json>>
    requires |reqs| == |inds|
  {
    if forall i :: 0 <= i < |reqs| ==> reqs[i].Some? then
      Some(seq(|inds|, i requires 0 <= i < |inds| => Resampled(st, k + i, inds[i], reqs[i].value)))
    else None
  }

  /**
   * Sampling changes only the values: the weights and the absence of `mu` carry over to
   * the sampled indicators.
   */
  lemma SampledRoundKeeps(st: Stream, k: nat, inds: seq<Json>, reqs: seq<Option<Draw>>)
    requires |reqs| == |inds| && SampledRound(st, k, inds, reqs).Some?
    ensures var r := SampledRound(st, k, inds, reqs).value;
      && |r| == |inds|
      && (forall i :: 0 <= i < |inds| ==> WeightOf(r[i]) == WeightOf(inds[i]))
      && (NonNegativeWeights(inds) ==> NonNegativeWeights(r))
      && (WithoutMu(inds) ==> WithoutMu(r))
  {
    var r := SampledRound(st, k, inds, reqs).value;
    forall i | 0 <= i < |inds|
      ensures r[i].JObj? == inds[i].JObj?
      ensures r[i].JObj? ==> Lookup(r[i].fields, "weight") == Lookup(inds[i].fields, "weight")
      ensures r[i].JObj? ==> Lookup(r[i].fields, "mu") == Lookup(inds[i].fields, "mu")
    {
      assert r[i] == Resampled(st, k + i, inds[i], reqs[i].value);
    }
  }

  /** The first |sampled| indicators, each drawn in turn from draw `base` on. */
  predicate SampledPrefix(st: Stream, base: nat, inds: seq<Json>, reqs: seq<Option<Draw>>, sampled: seq<Json>)
  {
    && |sampled| <= |inds| == |reqs|
    && forall j :: 0 <= j < |sampled| ==> reqs[j].Some? && sampled[j] == Resampled(st, base + j, inds[j], reqs[j].value)
  }

  lemma SampledPrefixSnoc(st: Stream, base: nat, inds: seq<Json>, reqs: seq<Option<Draw>>, sampled: seq<Json>, x: Json)
    requires SampledPrefix(st, base, inds, reqs, sampled) && |sampled| < |inds|
    requires reqs[|sampled|].Some? && x == Resampled(st, base + |sampled|, inds[|sampled|], reqs[|sampled|].value)
    ensures SampledPrefix(st, base, inds, reqs, sampled + [x])
  {
  }

  /** A prefix as long as the list is the round; a missing request sinks it. */
  lemma SampledPrefixEnd(st: Stream, base: nat, inds: seq<Json>, reqs: seq<Option<Draw>>, sampled: seq<Json>)
    requires SampledPrefix(st, base, inds, reqs, sampled)
    ensures |sampled| == |inds| ==> SampledRound(st, base, inds, reqs) == Some(sampled)
    ensures |sampled| < |inds| && reqs[|sampled|].None? ==> SampledRound(st, base, inds, reqs).None?
  {
    if |sampled| == |inds| {
      assert sampled == SampledRound(st, base, inds, reqs).value;
    }
  }

  /** The inner loop of `run_ahp_score`: one `_sample_by_distribution` per indicator, in order. */
  method SampleIndicators(rng: Rng, tr: Transcendentals, inds: seq<Json>) returns (r: Option<seq<Json>>)
    modifies rng
    ensures r == SampledRound(old(rng.stream), old(rng.drawn), inds, Requests(tr, inds))
    ensures rng.stream == old(rng.stream)
    ensures r.Some? ==> rng.drawn == old(rng.drawn) + |inds|
  {
    ghost var st, base := rng.stream, rng.drawn;
    var sampled: seq<Json> := [];
    while |sampled| < |inds|
      invariant rng.stream == st && rng.drawn == base + |sampled|
      invariant SampledPrefix(st, base, inds, Requests(tr, inds), sampled)
      decreases |inds| - |sampled|
    {
      var x := SampleNextIndicator(rng, tr, inds, |sampled|, base, sampled);
      if x.None? {
        return None;
      }
      sampled := sampled + [x.value];
    }
    SampledPrefixEnd(st, base, inds, Requests(tr, inds), sampled);
    r := Some(sampled);
  }

  /** One step of the inner loop: indicator |sampled| takes the next draw, or the round raises. */
  method SampleNextIndicator(rng: Rng, tr: Transcendentals, inds: seq<Json>, i: nat, ghost base: nat, ghost sampled: seq<Json>)
    returns (x: Option<Json>)
    requires i == |sampled| < |inds| && rng.drawn == base + i
    requires SampledPrefix(rng.stream, base, inds, Requests(tr, inds), sampled)
    modifies rng
    ensures rng.stream == old(rng.stream)
    ensures x.None? ==> SampledRound(rng.stream, base, inds, Requests(tr, inds)).None?
    ensures x.Some? ==> rng.drawn == old(rng.drawn) + 1 && SampledPrefix(rng.stream, base, inds, Requests(tr, inds), sampled + [x.value])
  {
    ghost var reqs, st := Requests(tr, inds), rng.stream;
    ghost var d := reqs[i];
    assert d == IndicatorDraw(tr, inds[i]);
    x := SampleIndicator(rng, tr, inds[i]);
    if x.None? {
      SampledPrefixEnd(st, base, inds, reqs, sampled);
    } else {
      assert x.value == Resampled(st, base + i, inds[i], d.value);
      SampledPrefixSnoc(st, base, inds, reqs, sampled, x.value);
    }
  }

  /** The body of the inner loop: the indicator, its value replaced by one draw. */
  method SampleIndicator(rng: Rng, tr: Transcendentals, ind: Json) returns (r: Option<Json>)
    modifies rng
    ensures var d := IndicatorDraw(tr, ind);
      r == if d.None? then None else Some(Resampled(old(rng.stream), old(rng.drawn), ind, d.value))
    ensures rng.stream == old(rng.stream) && rng.drawn == old(rng.drawn) + (if r.None? then 0 else 1)
  {
    if !ind.JObj? {
      return None;
    }
    var value := Lookup(ind.fields, "value");
    if value.None? {
      return None;
    }
    var distType := LookupOr(ind.fields, "distribution_type", JStr("normal"));
    var distParams := LookupOr(ind.fields, "dist_params", JObj([]));
    if !JsonTruthy(distParams) {
      distParams := JObj([("mu", LookupOr(ind.fields, "mu", value.value)), ("sigma", LookupOr(ind.fields, "sigma", JReal(1.0)))]);
    }
    var x := SampleByDistribution(rng, tr, distType, distParams, value.value);
    if x.None? {
      return None;
    }
    r := Some(JObj(SetField(ind.fields, "value", JReal(x.value))));
    assert Drawable(IndicatorDraw(tr, ind).value);
  }

  /** The draw at which iteration t starts: each iteration takes one draw per indicator. */
  function AhpRoundStart(k: nat, inds: seq<Json>, t: nat): nat
  {
    k + t * |inds|
  }

  lemma AhpRoundStartNext(k: nat, inds: seq<Json>, t: nat)
    ensures AhpRoundStart(k, inds, t) + |inds| == AhpRoundStart(k, inds, t + 1)
  {
    assert (t + 1) * |inds| == t * |inds| + |inds|;
  }

  /** The score of iteration t: the AHP score of its round of draws; None where either raises. */
  function RoundScore(tr: Transcendentals, st: Stream, k: nat, inds: seq<Json>, reqs: seq<Option<Draw>>, t: nat): Option<real>
    requires |reqs| == |inds|
  {
    match SampledRound(st, AhpRoundStart(k, inds, t), inds, reqs)
    case None => None
    case Some(sampled) => AhpScore(tr, sampled)
  }

  /** The scores of the first t iterations. */
  function RoundScores(tr: Transcendentals, st: Stream, k: nat, inds: seq<Json>, reqs: seq<Option<Draw>>, t: nat): (r: seq<Option<real>>)
    requires |reqs| == |inds|
    ensures |r| == t && forall i :: 0 <= i < t ==> r[i] == RoundScore(tr, st, k, inds, reqs, i)
  {
    seq(t, i requires 0 <= i < t => RoundScore(tr, st, k, inds, reqs, i))
  }

  /** The values of steps run in order; None as soon as one raises. */
  function Collected(xs: seq<Option<real>>): (r: Option<seq<real>>)
    ensures r.Some? ==> |r.value| == |xs|
  {
    if xs == [] then Some([])
    else
      var init := Collected(xs[..|xs| - 1]);
      if init.None? || xs[|xs| - 1].None? then None else Some(init.value + [xs[|xs| - 1].value])
  }

  /** The steps succeed together exactly when each does, and their values are kept in order. */
  lemma {:induction false} CollectedFacts(xs: seq<Option<real>>)
    ensures Collected(xs).Some? <==> forall i :: 0 <= i < |xs| ==> xs[i].Some?
    ensures Collected(xs).Some? ==> forall i :: 0 <= i < |xs| ==> xs[i] == Some(Collected(xs).value[i])
    decreases |xs|
  {
    if xs != [] {
      var n := |xs| - 1;
      CollectedFacts(xs[..n]);
      assert forall i :: 0 <= i < n ==> xs[..n][i] == xs[i];
    }
  }

  /** `score_samples` after t iterations; None where a draw or a score raises. */
  function AhpSamples(tr: Transcendentals, st: Stream, k: nat, inds: seq<Json>, reqs: seq<Option<Draw>>, t: nat): (r: Option<seq<real>>)
    requires |reqs| == |inds|
    ensures r.Some? ==> |r.value| == t
  {
    Collected(RoundScores(tr, st, k, inds, reqs, t))
  }

  /** Once an iteration raises, the run does. */
  lemma AhpSamplesNoneFrom(tr: Transcendentals, st: Stream, k: nat, inds: seq<Json>, reqs: seq<Option<Draw>>, t: nat, n: nat)
    requires |reqs| == |inds| && t <= n && AhpSamples(tr, st, k, inds, reqs, t).None?
    ensures AhpSamples(tr, st, k, inds, reqs, n).None?
  {
    var xt, xn := RoundScores(tr, st, k, inds, reqs, t), RoundScores(tr, st, k, inds, reqs, n);
    CollectedFacts(xt);
    CollectedFacts(xn);
    var i :| 0 <= i < t && xt[i].None?;
    assert xn[i].None?;
  }

  /** Sample t is the AHP score of the t-th round of drawn indicators. */
  lemma AhpSamplesAt(tr: Transcendentals, st: Stream, k: nat, inds: seq<Json>, reqs: seq<Option<Draw>>, n: nat, t: nat)
    requires |reqs| == |inds| && t < n && AhpSamples(tr, st, k, inds, reqs, n).Some?
    ensures var sampled := SampledRound(st, AhpRoundStart(k, inds, t), inds, reqs);
      sampled.Some? && AhpScore(tr, sampled.value) == Some(AhpSamples(tr, st, k, inds, reqs, n).value[t])
  {
    var xs := RoundScores(tr, st, k, inds, reqs, n);
    CollectedFacts(xs);
    assert RoundScore(tr, st, k, inds, reqs, t) == Some(AhpSamples(tr, st, k, inds, reqs, n).value[t]);
  }

  /** One iteration of the outer loop: its round of draws and its score. */
  lemma AhpSamplesSnoc(tr: Transcendentals, st: Stream, k: nat, inds: seq<Json>, reqs: seq<Option<Draw>>, t: nat, acc: seq<real>,
                       sampled: Option<seq<Json>>, score: Option<real>)
    requires |reqs| == |inds| && AhpSamples(tr, st, k, inds, reqs, t) == Some(acc)
    requires sampled == SampledRound(st, AhpRoundStart(k, inds, t), inds, reqs)
    requires sampled.Some? ==> score == AhpScore(tr, sampled.value)
    ensures sampled.None? ==> AhpSamples(tr, st, k, inds, reqs, t + 1).None?
    ensures sampled.Some? && score.None? ==> AhpSamples(tr, st, k, inds, reqs, t + 1).None?
    ensures sampled.Some? && score.Some? ==> AhpSamples(tr, st, k, inds, reqs, t + 1) == Some(acc + [score.value])
  {
    var xs := RoundScores(tr, st, k, inds, reqs, t + 1);
    assert xs[..t] == RoundScores(tr, st, k, inds, reqs, t);
    assert xs[t] == RoundScore(tr, st, k, inds, reqs, t);
  }


  /** The outer loop of `run_ahp_score`: n iterations of drawing and scoring. */
  method SampleScores(rng: Rng, tr: Transcendentals, inds: seq<Json>, n: nat) returns (scores: Option<seq<real>>)
    modifies rng
    ensures scores == AhpSamples(tr, old(rng.stream), old(rng.drawn), inds, Requests(tr, inds), n)
    ensures rng.stream == old(rng.stream)
    ensures scores.Some? ==> rng.drawn == AhpRoundStart(old(rng.drawn), inds, n)
  {
    ghost var st, d0 := rng.stream, rng.drawn;
    var acc: seq<real> := [];
    var t := 0;
    while t < n
      invariant t <= n
      invariant rng.stream == st && rng.drawn == AhpRoundStart(d0, inds, t)
      invariant AhpSamples(tr, st, d0, inds, Requests(tr, inds), t) == Some(acc)
    {
      var score := SampleNextScore(rng, tr, inds, d0, t, acc);
      if score.None? {
        AhpSamplesNoneFrom(tr, st, d0, inds, Requests(tr, inds), t + 1, n);
        return None;
      }
      acc := acc + [score.value];
      t := t + 1;
    }
    scores := Some(acc);
  }

  /** One step of the outer loop: iteration t draws its round and scores it, or raises. */
  method SampleNextScore(rng: Rng, tr: Transcendentals, inds: seq<Json>, ghost d0: nat, ghost t: nat, ghost acc: seq<real>)
    returns (score: Option<real>)
    requires rng.drawn == AhpRoundStart(d0, inds, t)
    requires AhpSamples(tr, rng.stream, d0, inds, Requests(tr, inds), t) == Some(acc)
    modifies rng
    ensures rng.stream == old(rng.stream)
    ensures score.None? ==> AhpSamples(tr, rng.stream, d0, inds, Requests(tr, inds), t + 1).None?
    ensures score.Some? ==>
      && AhpSamples(tr, rng.stream, d0, inds, Requests(tr, inds), t + 1) == Some(acc + [score.value])
      && rng.drawn == AhpRoundStart(d0, inds, t + 1)
  {
    ghost var reqs := Requests(tr, inds);
    AhpRoundStartNext(d0, inds, t);
    var sampled := SampleIndicators(rng, tr, inds);
    if sampled.None? {
      AhpSamplesSnoc(tr, rng.stream, d0, inds, reqs, t, acc, sampled, None);
      return None;
    }
    score := CalcAhpScore(tr, sampled.value);
    AhpSamplesSnoc(tr, rng.stream, d0, inds, reqs, t, acc, sampled, score);
  }

  /** What `indicators + fused` leaves to score: a list, nothing (the zero result), or a value whose scoring raises. */
  datatype IndicatorSource = NoIndicators | IndicatorList(items: seq<Json>) | NotIndicators

  /**
   * `indicators + fused` and `if not all_indicators`: two arrays concatenate; two strings
   * or two numbers add up, and scoring a non-empty string or a non-zero number raises;
   * any other pair makes `+` raise inside the `try`, which yields the zero result.
   */
  function Combine(a: Json, b: Json): IndicatorSource
  {
    if a.JArr? && b.JArr? then
      if a.items + b.items == [] then NoIndicators else IndicatorList(a.items + b.items)
    else if a.JStr? && b.JStr? then
      if a.s + b.s == [] then NoIndicators else NotIndicators
    else if JsonNumber(a).Some? && JsonNumber(b).Some? then
      if JsonNumber(a).value + JsonNumber(b).value == 0.0 then NoIndicators else NotIndicators
    else NoIndicators
  }

  /** The indicators of the mission's latest data set: `indicators` then `fused_indicators`. */
  function DatasetIndicators(dataset: Option<RiskDataset>): IndicatorSource
  {
    if dataset.None? || !dataset.value.dataset.ParsedText? then NoIndicators
    else
      var data := dataset.value.dataset.value;
      if !data.JObj? then NoIndicators
      else Combine(LookupOr(data.fields, "indicators", JArr([])), LookupOr(data.fields, "fused_indicators", JArr([])))
  }

  /** The result without indicators: all-zero AHP statistics and no histogram. */
  function AhpZero(n: ParamValue): McResult
  {
    McResult("ahp_score", n, [], None, Some(AhpStats(0.0, 0.0, 0.0, 0.0, 0.0, 0.0, 0.0, 0.0)), [])
  }

  /** High at a score of 0.5, extreme at 0.75. */
  function AhpStatsOf(np: Numpy, nominal: real, s: seq<real>): AhpStats
  {
    AhpStats(nominal, np.mean(s), np.std(s), np.percentile(s, 50.0), np.percentile(s, 90.0),
      np.percentile(s, 95.0), np.mean(AtLeast(s, 0.5)), np.mean(AtLeast(s, 0.75)))
  }

  /**
   * `run_ahp_score` on the mission's latest data set; None where it raises, which includes
   * no iterations over a list of indicators (`np.percentile` of an empty array).
   */
  function AhpMc(tr: Transcendentals, np: Numpy, st: Stream, k: nat, dataset: Option<RiskDataset>, n: ParamValue): (r: Option<McResult>)
    ensures r.Some? ==>
      && r.value.modelType == "ahp_score" && r.value.nSamples == ResolveSamples(n)
      && r.value.eventStats == [] && r.value.globalStats.None? && r.value.ahpStats.Some?
    ensures DatasetIndicators(dataset).NoIndicators? ==> r == Some(AhpZero(ResolveSamples(n)))
    ensures DatasetIndicators(dataset).NotIndicators? ==> r.None?
    ensures DatasetIndicators(dataset).IndicatorList? && Iterations(ResolveSamples(n)) in {None, Some(0)} ==> r.None?
  {
    var nv := ResolveSamples(n);
    match DatasetIndicators(dataset)
    case NoIndicators => Some(AhpZero(nv))
    case NotIndicators => None
    case IndicatorList(inds) =>
      var nominal := AhpScore(tr, inds);
      var it := Iterations(nv);
      if nominal.None? || it.None? || it.value == 0 then None
      else
        var scores := AhpSamples(tr, st, k, inds, Requests(tr, inds), it.value);
        if scores.None? then None
        else Some(McResult("ahp_score", nv, [], None, Some(AhpStatsOf(np, nominal.value, scores.value)), scores.value))
  }

  /** The draws `run_ahp_score` takes: one per indicator per iteration. */
  function AhpMcDraws(dataset: Option<RiskDataset>, n: ParamValue): nat
  {
    var it := Iterations(ResolveSamples(n));
    match DatasetIndicators(dataset)
    case IndicatorList(inds) => if it.None? then 0 else it.value * |inds|
    case _ => 0
  }

  /** `run_ahp_score`. */
  method RunAhpScore(rng: Rng, tr: Transcendentals, np: Numpy, dataset: Option<RiskDataset>, n: ParamValue)
    returns (r: Option<McResult>)
    modifies rng
    ensures r == AhpMc(tr, np, old(rng.stream), old(rng.drawn), dataset, n)
    ensures rng.stream == old(rng.stream)
    ensures r.Some? ==> rng.drawn == old(rng.drawn) + AhpMcDraws(dataset, n)
  {
    var nv := ResolveSamples(n);
    var source := DatasetIndicators(dataset);
    if source.NoIndicators? {
      return Some(AhpZero(nv));
    }
    if source.NotIndicators? {
      return None;
    }
    var inds := source.items;
    var nominal := CalcAhpScore(tr, inds);
    if nominal.None? {
      return None;
    }
    var it := Iterations(nv);
    if it.None? || it.value == 0 {
      return None;
    }
    var scores := SampleScores(rng, tr, inds, it.value);
    if scores.None? {
      return None;
    }
    var s := scores.value;
    var stats := AhpStats(nominal.value, np.mean(s), np.std(s), np.percentile(s, 50.0), np.percentile(s, 90.0),
      np.percentile(s, 95.0), np.mean(AtLeast(s, 0.5)), np.mean(AtLeast(s, 0.75)));
    r := Some(McResult("ahp_score", nv, [], None, Some(stats), s));
  }

  /** Counts below a common positive total give ordered fractions in [0, 1]. */
  lemma FractionsOrdered(a: nat, b: nat, n: nat)
    requires a <= b <= n && n > 0
    ensures 0.0 <= a as real / n as real <= b as real / n as real <= 1.0
  {
    DivSelf(n as real, n as real);
  }

  /**
   * The probabilities of an AHP run are the fractions of its histogram at or above 0.5 and
   * 0.75, and an extreme score is also a high one.
   */
  lemma AhpMcProbabilities(tr: Transcendentals, np: Numpy, st: Stream, k: nat, dataset: Option<RiskDataset>, n: ParamValue, r: McResult)
    requires MeanIsAverage(np) && AhpMc(tr, np, st, k, dataset, n) == Some(r)
    ensures var h, a := r.histogram, r.ahpStats.value;
      |h| > 0 ==>
        && a.probHigh == CountBy(h, Above(0.5)) as real / |h| as real
        && a.probExtreme == CountBy(h, Above(0.75)) as real / |h| as real
        && 0.0 <= a.probExtreme <= a.probHigh <= 1.0
  {
    var h := r.histogram;
    if |h| > 0 {
      ProbHighIsFraction(np, h, 0.5);
      ProbHighIsFraction(np, h, 0.75);
      CountByImplies(h, Above(0.75), Above(0.5));
      CountByBound(h, Above(0.5));
      FractionsOrdered(CountBy(h, Above(0.75)), CountBy(h, Above(0.5)), |h|);
    }
  }


  /** Every sampled score obeys the bounds of the AHP score of its round. */
  lemma AhpSampleBounds(tr: Transcendentals, st: Stream, k: nat, inds: seq<Json>, n: nat, j: nat)
    requires Sound(tr) && inds != [] && NonNegativeWeights(inds)
    requires AhpSamples(tr, st, k, inds, Requests(tr, inds), n).Some? && j < n
    ensures var h := AhpSamples(tr, st, k, inds, Requests(tr, inds), n).value;
      |h| == n && 0.0 <= h[j] <= 1.0 && (WithoutMu(inds) ==> h[j] >= 0.5)
  {
    var reqs := Requests(tr, inds);
    AhpSamplesAt(tr, st, k, inds, reqs, n, j);
    var sampled := SampledRound(st, AhpRoundStart(k, inds, j), inds, reqs);
    SampledRoundKeeps(st, AhpRoundStart(k, inds, j), inds, reqs);
    AhpScoreBounds(tr, sampled.value);
  }

  /**
   * A run on a list of indicators: the list is non-empty, the nominal score is the score
   * of the list, the histogram holds the scores of the sampled rounds, and the statistics
   * are those of the histogram.
   */
  lemma AhpMcOnList(tr: Transcendentals, np: Numpy, st: Stream, k: nat, dataset: Option<RiskDataset>, n: ParamValue, r: McResult)
    requires AhpMc(tr, np, st, k, dataset, n) == Some(r) && DatasetIndicators(dataset).IndicatorList?
    ensures var inds, it := DatasetIndicators(dataset).items, Iterations(ResolveSamples(n));
      && inds != [] && it.Some? && it.value > 0 && r.ahpStats.Some?
      && AhpScore(tr, inds) == Some(r.ahpStats.value.nominalScore)
      && AhpSamples(tr, st, k, inds, Requests(tr, inds), it.value) == Some(r.histogram)
      && r.ahpStats.value == AhpStatsOf(np, r.ahpStats.value.nominalScore, r.histogram)
  {
  }

  /**
   * With non-negative weights the nominal score and every sampled score lie in [0, 1],
   * and without `mu` they are at least 0.5.
   */
  lemma ScoresBounds(tr: Transcendentals, st: Stream, k: nat, inds: seq<Json>, it: nat, nominal: real, h: seq<real>)
    requires Sound(tr) && inds != [] && NonNegativeWeights(inds)
    requires AhpScore(tr, inds) == Some(nominal) && AhpSamples(tr, st, k, inds, Requests(tr, inds), it) == Some(h)
    ensures 0.0 <= nominal <= 1.0 && forall j :: 0 <= j < |h| ==> 0.0 <= h[j] <= 1.0
    ensures WithoutMu(inds) ==> nominal >= 0.5 && forall j :: 0 <= j < |h| ==> h[j] >= 0.5
  {
    AhpScoreBounds(tr, inds);
    forall j | 0 <= j < |h|
      ensures 0.0 <= h[j] <= 1.0 && (WithoutMu(inds) ==> h[j] >= 0.5)
    {
      AhpSampleBounds(tr, st, k, inds, it, j);
    }
  }

  /** With non-negative weights the nominal score and every sampled score lie in [0, 1]. */
  lemma AhpMcBounds(tr: Transcendentals, np: Numpy, st: Stream, k: nat, dataset: Option<RiskDataset>, n: ParamValue, r: McResult)
    requires Sound(tr) && AhpMc(tr, np, st, k, dataset, n) == Some(r)
    requires DatasetIndicators(dataset).IndicatorList? ==> NonNegativeWeights(DatasetIndicators(dataset).items)
    ensures r.ahpStats.Some? && 0.0 <= r.ahpStats.value.nominalScore <= 1.0
    ensures forall j :: 0 <= j < |r.histogram| ==> 0.0 <= r.histogram[j] <= 1.0
  {
    var src := DatasetIndicators(dataset);
    if src.IndicatorList? {
      AhpMcOnList(tr, np, st, k, dataset, n, r);
      ScoresBounds(tr, st, k, src.items, Iterations(ResolveSamples(n)).value, r.ahpStats.value.nominalScore, r.histogram);
    }
  }

  /**
   * When no indicator carries a `mu`, the nominal score and every sampled score are at
   * least 0.5, so every iteration counts as high.
   */
  lemma AhpMcWithoutMu(tr: Transcendentals, np: Numpy, st: Stream, k: nat, dataset: Option<RiskDataset>, n: ParamValue, r: McResult)
    requires Sound(tr) && AhpMc(tr, np, st, k, dataset, n) == Some(r) && DatasetIndicators(dataset).IndicatorList?
    requires NonNegativeWeights(DatasetIndicators(dataset).items) && WithoutMu(DatasetIndicators(dataset).items)
    ensures r.ahpStats.Some? && r.ahpStats.value.nominalScore >= 0.5
    ensures forall j :: 0 <= j < |r.histogram| ==> r.histogram[j] >= 0.5
    ensures MeanIsAverage(np) && |r.histogram| > 0 ==> r.ahpStats.value.probHigh == 1.0
  {
    AhpMcOnList(tr, np, st, k, dataset, n, r);
    ScoresBounds(tr, st, k, DatasetIndicators(dataset).items, Iterations(ResolveSamples(n)).value, r.ahpStats.value.nominalScore, r.histogram);
    if MeanIsAverage(np) && |r.histogram| > 0 {
      AllHigh(np, r.histogram);
    }
  }

  /** Scores that are all at least 0.5 are high in every iteration. */
  lemma AllHigh(np: Numpy, h: seq<real>)
    requires MeanIsAverage(np) && |h| > 0 && forall j :: 0 <= j < |h| ==> h[j] >= 0.5
    ensures np.mean(AtLeast(h, 0.5)) == 1.0
  {
    CountByAll(h, Above(0.5));
    ProbHighIsFraction(np, h, 0.5);
    DivSelf(|h| as real, |h| as real);
  }

  // ---------------------------------------------------------------------------
  // MonteCarloResult.to_dict and generate_recommendations.

  /** `n_samples` as the caller passed it. */
  function ParamJson(v: ParamValue): Json
  {
    match v
    case PInt(i) => JInt(i)
    case PFloat(f) => JReal(f)
    case PStr(t) => JStr(t)
    case PBool(b) => JBool(b)
    case PNone => JNull
  }

  function EventStatsJson(s: EventStats): Json
  {
    JObj([("event_id", JInt(s.eventId)), ("event_name", JStr(s.eventName)), ("nominal_R", JInt(s.nominal)),
          ("mean", JReal(s.mean)), ("std", JReal(s.std)), ("p50", JReal(s.p50)), ("p90", JReal(s.p90)),
          ("p95", JReal(s.p95)), ("prob_high", JReal(s.probHigh))])
  }

  function GlobalStatsJson(g: GlobalStats): Json
  {
    JObj([("indicator_name", JStr(g.indicatorName)), ("nominal_value", JReal(g.nominalValue)),
          ("mean", JReal(g.mean)), ("std", JReal(g.std)), ("p50", JReal(g.p50)), ("p90", JReal(g.p90)),
          ("p95", JReal(g.p95)), ("prob_high", JReal(g.probHigh))])
  }

  function AhpStatsJson(a: AhpStats): Json
  {
    JObj([("nominal_score", JReal(a.nominalScore)), ("mean", JReal(a.mean)), ("std", JReal(a.std)),
          ("p50", JReal(a.p50)), ("p90", JReal(a.p90)), ("p95", JReal(a.p95)),
          ("prob_high", JReal(a.probHigh)), ("prob_extreme", JReal(a.probExtreme))])
  }

  /** `MonteCarloResult.to_dict`: at most the first 100 histogram values are kept. */
  function ToDict(r: McResult): Json
  {
    var base := [
      ("model_type", JStr(r.modelType)),
      ("n_samples", ParamJson(r.nSamples)),
      ("event_stats", JArr(seq(|r.eventStats|, i requires 0 <= i < |r.eventStats| => EventStatsJson(r.eventStats[i])))),
      ("histogram_data", RealArray(PyPrefix(r.histogram, 100)))];
    var global := if r.globalStats.Some? then [("global_stats", GlobalStatsJson(r.globalStats.value))] else [];
    var ahp := if r.ahpStats.Some? then [("ahp_stats", AhpStatsJson(r.ahpStats.value))] else [];
    JObj(base + global + ahp)
  }

  /**
   * The keys of `to_dict` in order, one entry per event statistic, and a histogram that
   * is the first min(100, n) values.
   */
  lemma ToDictFacts(r: McResult)
    ensures var j := ToDict(r);
      && j.JObj?
      && FieldKeys(j.fields) == ["model_type", "n_samples", "event_stats", "histogram_data"]
           + (if r.globalStats.Some? then ["global_stats"] else [])
           + (if r.ahpStats.Some? then ["ahp_stats"] else [])
      && j.fields[2].1.JArr? && |j.fields[2].1.items| == |r.eventStats|
      && j.fields[3].1.JArr? && |j.fields[3].1.items| == MinInt(100, |r.histogram|)
      && forall i :: 0 <= i < |j.fields[3].1.items| ==> j.fields[3].1.items[i] == JReal(r.histogram[i])
  {
    var j := ToDict(r);
    var keys := ["model_type", "n_samples", "event_stats", "histogram_data"]
      + (if r.globalStats.Some? then ["global_stats"] else [])
      + (if r.ahpStats.Some? then ["ahp_stats"] else []);
    assert |FieldKeys(j.fields)| == |keys|;
    forall i | 0 <= i < |keys|
      ensures FieldKeys(j.fields)[i] == keys[i]
    {
    }
  }

  /** The advice of `generate_recommendations`; percentages are `prob·100` before formatting. */
  datatype Advice =
    | RedundancyAdvice(nSamples: ParamValue, highPercent: real)
    | AhpRangeAdvice(highPercent: real, extremePercent: real)
    | ReduceUncertainty
    | AddMonitoring

  /**
   * `generate_recommendations`: one line when the global statistic is high in more than
   * 10% of the iterations, three when the AHP score is high in more than 20%.
   */
  function Recommendations(r: McResult): seq<Advice>
  {
    var global :=
      if r.globalStats.Some? && r.globalStats.value.probHigh > 0.1
      then [RedundancyAdvice(r.nSamples, r.globalStats.value.probHigh * 100.0)] else [];
    var ahp :=
      if r.ahpStats.Some? && r.ahpStats.value.probHigh > 0.2
      then [AhpRangeAdvice(r.ahpStats.value.probHigh * 100.0, r.ahpStats.value.probExtreme * 100.0), ReduceUncertainty, AddMonitoring]
      else [];
    global + ahp
  }

  /** A discrete simulation earns no AHP advice, and an AHP run no redundancy advice. */
  lemma RecommendationsByKind(np: Numpy, k: Kind, st: Stream, d: nat, xs: seq<McRecord>, n: ParamValue,
                              tr: Transcendentals, dataset: Option<RiskDataset>)
    ensures var r := Simulate(np, k, st, d, xs, n);
      r.Some? && xs != [] ==> forall i :: 0 <= i < |Recommendations(r.value)| ==> Recommendations(r.value)[i].RedundancyAdvice?
    ensures var r := AhpMc(tr, np, st, d, dataset, n);
      r.Some? ==> forall i :: 0 <= i < |Recommendations(r.value)| ==> !Recommendations(r.value)[i].RedundancyAdvice?
  {
  }

  /** Without global statistics, the advice is the AHP lines alone, when the score is high often enough. */
  lemma AhpOnlyAdvice(r: McResult)
    requires r.globalStats.None? && r.ahpStats.Some?
    ensures var a := r.ahpStats.value;
      Recommendations(r) == if a.probHigh > 0.2 then [AhpRangeAdvice(a.probHigh * 100.0, a.probExtreme * 100.0), ReduceUncertainty, AddMonitoring] else []
  {
  }

  // ---------------------------------------------------------------------------
  // MonteCarloModel.run.

  /** A parameter, or its default when absent (`params.get(k, default)`). */
  function Param(params: map<string, ParamValue>, k: string, default: ParamValue): ParamValue
  {
    if k in params then params[k] else default
  }

  /** `params.get(k, True)`, read as a truth value. */
  predicate Flag(params: map<string, ParamValue>, k: string)
  {
    k !in params || Truthy(params[k])
  }

  /** The generator's stream and the number of values drawn from it. */
  datatype RngState = RngState(stream: Stream, drawn: nat)

  /**
   * `if seed >= 0: np.random.seed(seed)`: the stream and draw count the analyses start
   * from. A negative seed keeps the current state; numpy accepts only integers from 0 to
   * 2^32 - 1 (a bool is 0 or 1); a non-negative float, a string or None raises.
   */
  function StartStream(seed: ParamValue, st: Stream, d: nat, seeded: nat -> Stream): Option<RngState>
  {
    match seed
    case PInt(i) => if i < 0 then Some(RngState(st, d)) else if i > 0xFFFF_FFFF then None else Some(RngState(seeded(i), 0))
    case PBool(b) => Some(RngState(seeded(if b then 1 else 0), 0))
    case PFloat(f) => if f < 0.0 then Some(RngState(st, d)) else None
    case _ => None
  }

  /** What one analysis adds to `results`, and the draws it takes. */
  datatype Outcome = Outcome(entries: seq<(string, Json)>, draws: nat)

  /** One analysis a flag switches on: its entry in `results` and the draws it takes; None where it raises. */
  function Stage(key: string, on: bool, r: Option<McResult>, draws: nat): Option<Outcome>
  {
    if !on then Some(Outcome([], 0))
    else if r.None? then None
    else Some(Outcome([(key, ToDict(r.value))], draws))
  }

  /** `n_samples`, 2000 when absent. */
  function SamplesParam(params: map<string, ParamValue>): ParamValue
  {
    Param(params, "n_samples", PInt(2000))
  }

  /** `run_risk_matrix` from draw d on, when `run_risk_matrix` is set. */
  function RiskMatrixStage(np: Numpy, st: Stream, d: nat, params: map<string, ParamValue>, events: seq<RiskEvent>)
    : Option<Outcome>
  {
    var xs, n := EventRecords(events), SamplesParam(params);
    Stage("risk_matrix", Flag(params, "run_risk_matrix"), Simulate(np, RiskMatrixKind, st, d, xs, n), SimulationDraws(xs, n))
  }

  /** `run_fmea` from draw d on, when `run_fmea` is set. */
  function FmeaStage(np: Numpy, st: Stream, d: nat, params: map<string, ParamValue>, items: seq<FmeaItem>)
    : Option<Outcome>
  {
    var xs, n := ItemRecords(items), SamplesParam(params);
    Stage("fmea", Flag(params, "run_fmea"), Simulate(np, FmeaKind, st, d, xs, n), SimulationDraws(xs, n))
  }

  /** `run_ahp_score` from draw d on, when `run_ahp` is set. */
  function AhpStage(tr: Transcendentals, np: Numpy, st: Stream, d: nat, params: map<string, ParamValue>, dataset: Option<RiskDataset>)
    : Option<Outcome>
  {
    var n := SamplesParam(params);
    Stage("ahp", Flag(params, "run_ahp"), AhpMc(tr, np, st, d, dataset, n), AhpMcDraws(dataset, n))
  }

  /** The draws an analysis takes when its flag is `on`: none when it is off. */
  function StageDraws(on: bool, draws: nat): nat
  {
    if on then draws else 0
  }

  /** Where the FMEA analysis starts: after the risk matrix's draws. */
  function FmeaStart(d: nat, params: map<string, ParamValue>, events: seq<RiskEvent>): nat
  {
    d + StageDraws(Flag(params, "run_risk_matrix"), SimulationDraws(EventRecords(events), SamplesParam(params)))
  }

  /** Where the AHP analysis starts, when the FMEA analysis starts at d: after the FMEA's draws. */
  function AhpStart(d: nat, params: map<string, ParamValue>, items: seq<FmeaItem>): nat
  {
    d + StageDraws(Flag(params, "run_fmea"), SimulationDraws(ItemRecords(items), SamplesParam(params)))
  }

  /** One analysis followed by the rest: their entries in order and their draws together; None as soon as one raises. */
  function Then(first: Option<Outcome>, rest: Option<Outcome>): Option<Outcome>
  {
    if first.None? || rest.None? then None
    else Some(Outcome(first.value.entries + rest.value.entries, first.value.draws + rest.value.draws))
  }

  /**
   * The three analyses in order from draw d on, each continuing the random stream where
   * the previous one stopped: the entries of `results` and the draws taken; None where one
   * raises.
   */
  function Analyses(tr: Transcendentals, np: Numpy, st: Stream, d: nat, params: map<string, ParamValue>,
                    events: seq<RiskEvent>, items: seq<FmeaItem>, dataset: Option<RiskDataset>)
    : Option<Outcome>
  {
    Then(RiskMatrixStage(np, st, d, params, events), LaterAnalyses(tr, np, st, FmeaStart(d, params, events), params, items, dataset))
  }

  /** The FMEA and AHP analyses, in order from draw d on. */
  function LaterAnalyses(tr: Transcendentals, np: Numpy, st: Stream, d: nat, params: map<string, ParamValue>,
                         items: seq<FmeaItem>, dataset: Option<RiskDataset>)
    : Option<Outcome>
  {
    Then(FmeaStage(np, st, d, params, items), AhpStage(tr, np, st, AhpStart(d, params, items), params, dataset))
  }

  /** The `results` of a run and the generator's state after it. */
  datatype Evaluation = Evaluation(results: Json, after: RngState)

  /**
   * The body of the `try` in `run`: seeding, then the analyses; None where an exception
   * is caught.
   */
  function Evaluate(tr: Transcendentals, np: Numpy, st: Stream, d: nat, seeded: nat -> Stream, params: map<string, ParamValue>,
                    events: seq<RiskEvent>, items: seq<FmeaItem>, dataset: Option<RiskDataset>): Option<Evaluation>
  {
    match StartStream(Param(params, "random_seed", PInt(42)), st, d, seeded)
    case None => None
    case Some(start) =>
      match Analyses(tr, np, start.stream, start.drawn, params, events, items, dataset)
      case None => None
      case Some(a) => Some(Evaluation(JObj(a.entries), RngState(start.stream, start.drawn + a.draws)))
  }

  /** `MonteCarloModel.run`: a missing or zero `mission_id` is refused; an exception fails the run. */
  function Assess(tr: Transcendentals, np: Numpy, st: Stream, d: nat, seeded: nat -> Stream, missionId: Option<int>,
                  params: map<string, ParamValue>, events: seq<RiskEvent>, items: seq<FmeaItem>, dataset: Option<RiskDataset>)
    : RunResult<Json>
  {
    if missionId.None? || missionId.value == 0 then Failure(MissingMissionId)
    else
      var e := Evaluate(tr, np, st, d, seeded, params, events, items, dataset);
      if e.None? then Failure(EvaluationFailed) else Success(e.value.results)
  }

  /** `MonteCarloModel.run`, the data access layer's rows given as parameters. */
  method Run(rng: Rng, tr: Transcendentals, np: Numpy, missionId: Option<int>, params: map<string, ParamValue>,
             events: seq<RiskEvent>, items: seq<FmeaItem>, dataset: Option<RiskDataset>)
    returns (r: RunResult<Json>)
    modifies rng
    ensures r == Assess(tr, np, old(rng.stream), old(rng.drawn), rng.seeded, missionId, params, events, items, dataset)
    ensures r.Success? ==>
      Evaluate(tr, np, old(rng.stream), old(rng.drawn), rng.seeded, params, events, items, dataset).value.after == RngState(rng.stream, rng.drawn)
  {
    if missionId.None? || missionId.value == 0 {
      return Failure(MissingMissionId);
    }
    ghost var st, d := rng.stream, rng.drawn;
    var seeded := SeedFrom(rng, Param(params, "random_seed", PInt(42)));
    if !seeded {
      return Failure(EvaluationFailed);
    }
    ghost var start := StartStream(Param(params, "random_seed", PInt(42)), st, d, rng.seeded).value;
    assert rng.stream == start.stream && rng.drawn == start.drawn;
    var a := RunAnalyses(rng, tr, np, params, events, items, dataset);
    assert a == Analyses(tr, np, start.stream, start.drawn, params, events, items, dataset);
    r := if a.None? then Failure(EvaluationFailed) else Success(JObj(a.value.entries));
  }

  /** A run without a mission id is refused before anything else, and only then. */
  lemma AssessRefusesMissingId(tr: Transcendentals, np: Numpy, st: Stream, d: nat, seeded: nat -> Stream, missionId: Option<int>,
                               params: map<string, ParamValue>, events: seq<RiskEvent>, items: seq<FmeaItem>, dataset: Option<RiskDataset>)
    ensures Assess(tr, np, st, d, seeded, missionId, params, events, items, dataset) == Failure(MissingMissionId)
      <==> missionId.None? || missionId.value == 0
  {
  }

  /** The keys of `results`: the analyses whose flags are set, in the order they run. */
  function FlaggedAnalyses(params: map<string, ParamValue>): seq<string>
  {
    (if Flag(params, "run_risk_matrix") then ["risk_matrix"] else [])
    + (if Flag(params, "run_fmea") then ["fmea"] else [])
    + (if Flag(params, "run_ahp") then ["ahp"] else [])
  }

  /** An analysis adds its key exactly when its flag is set. */
  lemma StageKeys(key: string, on: bool, r: Option<McResult>, draws: nat)
    ensures var x := Stage(key, on, r, draws); x.Some? ==> FieldKeys(x.value.entries) == if on then [key] else []
  {
  }

  /** Analyses run in order keep their keys in order. */
  lemma ThenKeys(first: Option<Outcome>, rest: Option<Outcome>)
    ensures var x := Then(first, rest);
      x.Some? ==> FieldKeys(x.value.entries) == FieldKeys(first.value.entries) + FieldKeys(rest.value.entries)
  {
    if first.Some? && rest.Some? {
      FieldKeysAppend(first.value.entries, rest.value.entries);
    }
  }

  /** Analyses that succeed add one entry per flag that is set, in order. */
  lemma AnalysesKeys(tr: Transcendentals, np: Numpy, st: Stream, d: nat, params: map<string, ParamValue>,
                     events: seq<RiskEvent>, items: seq<FmeaItem>, dataset: Option<RiskDataset>)
    ensures var a := Analyses(tr, np, st, d, params, events, items, dataset);
      a.Some? ==> FieldKeys(a.value.entries) == FlaggedAnalyses(params)
  {
    var d1, n := FmeaStart(d, params, events), SamplesParam(params);
    StageKeys("risk_matrix", Flag(params, "run_risk_matrix"), Simulate(np, RiskMatrixKind, st, d, EventRecords(events), n), SimulationDraws(EventRecords(events), n));
    LaterAnalysesKeys(tr, np, st, d1, params, items, dataset);
    ThenKeys(RiskMatrixStage(np, st, d, params, events), LaterAnalyses(tr, np, st, d1, params, items, dataset));
  }

  /** The FMEA and AHP analyses add one entry per flag that is set, in order. */
  lemma LaterAnalysesKeys(tr: Transcendentals, np: Numpy, st: Stream, d: nat, params: map<string, ParamValue>,
                          items: seq<FmeaItem>, dataset: Option<RiskDataset>)
    ensures var a := LaterAnalyses(tr, np, st, d, params, items, dataset);
      var keys := (if Flag(params, "run_fmea") then ["fmea"] else []) + (if Flag(params, "run_ahp") then ["ahp"] else []);
      a.Some? ==> FieldKeys(a.value.entries) == keys
  {
    var n := SamplesParam(params);
    StageKeys("fmea", Flag(params, "run_fmea"), Simulate(np, FmeaKind, st, d, ItemRecords(items), n), SimulationDraws(ItemRecords(items), n));
    StageKeys("ahp", Flag(params, "run_ahp"), AhpMc(tr, np, st, AhpStart(d, params, items), dataset, n), AhpMcDraws(dataset, n));
    ThenKeys(FmeaStage(np, st, d, params, items), AhpStage(tr, np, st, AhpStart(d, params, items), params, dataset));
  }

  /** A run that succeeds returns an object keyed by the analyses its flags switch on. */
  lemma AssessKeys(tr: Transcendentals, np: Numpy, st: Stream, d: nat, seeded: nat -> Stream, missionId: Option<int>,
                   params: map<string, ParamValue>, events: seq<RiskEvent>, items: seq<FmeaItem>, dataset: Option<RiskDataset>)
    ensures var r := Assess(tr, np, st, d, seeded, missionId, params, events, items, dataset);
      r.Success? ==> r.data.JObj? && FieldKeys(r.data.fields) == FlaggedAnalyses(params)
  {
    if missionId.Some? && missionId.value != 0 {
      EvaluateKeys(tr, np, st, d, seeded, params, events, items, dataset);
    }
  }

  /** The object `run` returns holds one entry per analysis switched on, in order. */
  lemma EvaluateKeys(tr: Transcendentals, np: Numpy, st: Stream, d: nat, seeded: nat -> Stream, params: map<string, ParamValue>,
                     events: seq<RiskEvent>, items: seq<FmeaItem>, dataset: Option<RiskDataset>)
    ensures var e := Evaluate(tr, np, st, d, seeded, params, events, items, dataset);
      e.Some? ==> e.value.results.JObj? && FieldKeys(e.value.results.fields) == FlaggedAnalyses(params)
  {
    var start := StartStream(Param(params, "random_seed", PInt(42)), st, d, seeded);
    if start.Some? {
      AnalysesKeys(tr, np, start.value.stream, start.value.drawn, params, events, items, dataset);
    }
  }

  /**
   * A seed numpy accepts, or none (42), makes the run reproducible: its outcome does not
   * depend on the stream or the draws before it.
   */
  lemma SeedReproducible(tr: Transcendentals, np: Numpy, st: Stream, d: nat, st': Stream, d': nat, seeded: nat -> Stream,
                         missionId: Option<int>, params: map<string, ParamValue>, events: seq<RiskEvent>,
                         items: seq<FmeaItem>, dataset: Option<RiskDataset>)
    requires var seed := Param(params, "random_seed", PInt(42)); (seed.PInt? && 0 <= seed.i <= 0xFFFF_FFFF) || seed.PBool?
    ensures Assess(tr, np, st, d, seeded, missionId, params, events, items, dataset)
         == Assess(tr, np, st', d', seeded, missionId, params, events, items, dataset)
  {
    var seed := Param(params, "random_seed", PInt(42));
    assert StartStream(seed, st, d, seeded) == StartStream(seed, st', d', seeded);
  }

  /** A negative seed leaves the generator alone: the run continues the current stream. */
  lemma NegativeSeedContinues(tr: Transcendentals, np: Numpy, st: Stream, d: nat, seeded: nat -> Stream, params: map<string, ParamValue>,
                              events: seq<RiskEvent>, items: seq<FmeaItem>, dataset: Option<RiskDataset>)
    requires var seed := Param(params, "random_seed", PInt(42)); (seed.PInt? && seed.i < 0) || (seed.PFloat? && seed.f < 0.0)
    ensures var e := Evaluate(tr, np, st, d, seeded, params, events, items, dataset);
      e.Some? ==> e.value.after.stream == st && e.value.after.drawn >= d
  {
  }

  /** A seed numpy refuses (too large, a non-negative float, a string, None) fails the run. */
  lemma BadSeedFails(tr: Transcendentals, np: Numpy, st: Stream, d: nat, seeded: nat -> Stream, missionId: Option<int>,
                     params: map<string, ParamValue>, events: seq<RiskEvent>, items: seq<FmeaItem>, dataset: Option<RiskDataset>)
    requires missionId.Some? && missionId.value != 0
    requires var seed := Param(params, "random_seed", PInt(42));
      (seed.PInt? && seed.i > 0xFFFF_FFFF) || (seed.PFloat? && seed.f >= 0.0) || seed.PStr? || seed.PNone?
    ensures Assess(tr, np, st, d, seeded, missionId, params, events, items, dataset) == Failure(EvaluationFailed)
  {
  }

  /** The seeding in `run`: false where `np.random.seed` raises. */
  method SeedFrom(rng: Rng, seed: ParamValue) returns (ok: bool)
    modifies rng
    ensures var start := StartStream(seed, old(rng.stream), old(rng.drawn), rng.seeded);
      && ok == start.Some?
      && (ok ==> start.value == RngState(rng.stream, rng.drawn))
  {
    ok := true;
    match seed {
      case PInt(i) =>
        if i >= 0 {
          if i > 0xFFFF_FFFF {
            return false;
          }
          rng.Seed(i);
        }
      case PBool(b) =>
        rng.Seed(if b then 1 else 0);
      case PFloat(f) =>
        ok := f < 0.0;
      case PStr(_) =>
        ok := false;
      case PNone =>
        ok := false;
    }
  }

  /** The risk matrix analysis of `run`, when its flag is set. */
  method RunRiskMatrixStage(rng: Rng, np: Numpy, params: map<string, ParamValue>, events: seq<RiskEvent>)
    returns (x: Option<Outcome>)
    modifies rng
    ensures x == RiskMatrixStage(np, old(rng.stream), old(rng.drawn), params, events)
    ensures rng.stream == old(rng.stream) && rng.drawn == FmeaStart(old(rng.drawn), params, events)
  {
    if !Flag(params, "run_risk_matrix") {
      return Some(Outcome([], 0));
    }
    var n := SamplesParam(params);
    var r := RunRiskMatrix(rng, np, events, n);
    x := if r.None? then None else Some(Outcome([("risk_matrix", ToDict(r.value))], SimulationDraws(EventRecords(events), n)));
  }

  /** The FMEA analysis of `run`, when its flag is set. */
  method RunFmeaStage(rng: Rng, np: Numpy, params: map<string, ParamValue>, items: seq<FmeaItem>)
    returns (x: Option<Outcome>)
    modifies rng
    ensures x == FmeaStage(np, old(rng.stream), old(rng.drawn), params, items)
    ensures rng.stream == old(rng.stream)
    ensures rng.drawn == AhpStart(old(rng.drawn), params, items)
  {
    if !Flag(params, "run_fmea") {
      return Some(Outcome([], 0));
    }
    var n := SamplesParam(params);
    var r := RunFmea(rng, np, items, n);
    x := if r.None? then None else Some(Outcome([("fmea", ToDict(r.value))], SimulationDraws(ItemRecords(items), n)));
  }

  /** The AHP analysis of `run`, when its flag is set. */
  method RunAhpStage(rng: Rng, tr: Transcendentals, np: Numpy, params: map<string, ParamValue>, dataset: Option<RiskDataset>)
    returns (x: Option<Outcome>)
    modifies rng
    ensures x == AhpStage(tr, np, old(rng.stream), old(rng.drawn), params, dataset)
    ensures rng.stream == old(rng.stream)
    ensures x.Some? ==> rng.drawn == old(rng.drawn) + x.value.draws
  {
    if !Flag(params, "run_ahp") {
      return Some(Outcome([], 0));
    }
    var n := SamplesParam(params);
    var r := RunAhpScore(rng, tr, np, dataset, n);
    x := if r.None? then None else Some(Outcome([("ahp", ToDict(r.value))], AhpMcDraws(dataset, n)));
  }

  /** The analyses of `run` that their flags switch on, in order, into `results`. */
  method RunAnalyses(rng: Rng, tr: Transcendentals, np: Numpy, params: map<string, ParamValue>,
                     events: seq<RiskEvent>, items: seq<FmeaItem>, dataset: Option<RiskDataset>)
    returns (x: Option<Outcome>)
    modifies rng
    ensures x == Analyses(tr, np, old(rng.stream), old(rng.drawn), params, events, items, dataset)
    ensures rng.stream == old(rng.stream)
    ensures x.Some? ==> rng.drawn == old(rng.drawn) + x.value.draws
  {
    ghost var st, d := rng.stream, rng.drawn;
    var rm := RunRiskMatrixStage(rng, np, params, events);
    if rm.None? {
      return None;
    }
    assert rng.stream == st && rng.drawn == FmeaStart(d, params, events);
    var rest := RunLaterAnalyses(rng, tr, np, params, items, dataset);
    assert rest == LaterAnalyses(tr, np, st, FmeaStart(d, params, events), params, items, dataset);
    x := Then(rm, rest);
  }

  /** The FMEA and AHP analyses of `run`, in order. */
  method RunLaterAnalyses(rng: Rng, tr: Transcendentals, np: Numpy, params: map<string, ParamValue>,
                          items: seq<FmeaItem>, dataset: Option<RiskDataset>)
    returns (x: Option<Outcome>)
    modifies rng
    ensures x == LaterAnalyses(tr, np, old(rng.stream), old(rng.drawn), params, items, dataset)
    ensures rng.stream == old(rng.stream)
    ensures x.Some? ==> rng.drawn == old(rng.drawn) + x.value.draws
  {
    ghost var st, d := rng.stream, rng.drawn;
    var fm := RunFmeaStage(rng, np, params, items);
    if fm.None? {
      return None;
    }
    assert rng.stream == st && rng.drawn == AhpStart(d, params, items);
    var ah := RunAhpStage(rng, tr, np, params, dataset);
    assert ah == AhpStage(tr, np, st, AhpStart(d, params, items), params, dataset);
    x := Then(fm, ah);
  }

}
