// The fault tree model (app/models/fta.py): memoised bottom-up AND/OR probability
// propagation, the probability-decade likelihood scale, R = L x S with its level,
// per-node contributions, a one-at-a-time sensitivity over the basic events, and the
// recommendation lines.
//
// Python evaluates the tree by plain recursion and reports any exception as a failed
// run. On a tree with a cycle the recursion never bottoms out and ends in
// RecursionError; the model makes the interpreter's recursion limit a parameter
// (`fuel`) and fails where the nesting of gate evaluations exceeds it.
module Fta {
  import opened Common
  import opened ModelBase
  import opened Records
  import RiskTypes

  type NodeMap = map<int, FtaNode>
  type ChildMap = map<int, seq<int>>
  type Memo = map<int, real>

  const Schema: seq<ParamSpec> := [
    ParamSpec("default_severity", "默认严重度(S)", IntParam, PInt(3), "当顶事件未设置严重度时使用的默认值",
              Some(1.0), Some(5.0), []),
    ParamSpec("sensitivity_delta", "敏感性扰动比例", FloatParam, PFloat(0.1),
              "敏感性分析时对基本事件概率的扰动比例(如0.1表示±10%)", Some(0.01), Some(0.5), []),
    ParamSpec("top_n_sensitivity", "敏感性Top-N", IntParam, PInt(10), "敏感性分析输出的关键因素数量",
              Some(1.0), Some(50.0), [])]

  const Info: ModelInfo := ModelInfo("fta", "故障树分析(FTA)",
    "基于故障树的定量风险分析，计算顶事件发生概率并映射为风险等级", "定量分析", Schema)

  // ---------------------------------------------------------------------------
  // Gates.

  /** `prob = 1.0; for p in ps: prob *= p`. */
  function Prod(ps: seq<real>): real
  {
    if ps == [] then 1.0 else Prod(ps[..|ps| - 1]) * ps[|ps| - 1]
  }

  /** `prob = 1.0; for p in ps: prob *= (1 - p)`. */
  function CoProd(ps: seq<real>): real
  {
    if ps == [] then 1.0 else CoProd(ps[..|ps| - 1]) * (1.0 - ps[|ps| - 1])
  }

  /** An AND gate multiplies; every other gate type, the empty one included, is an OR. */
  function Gate(gateType: string, ps: seq<real>): real
  {
    if gateType == "AND" then Prod(ps) else 1.0 - CoProd(ps)
  }

  /** The gate loops of `_calc_node_prob`. */
  method GateValue(gateType: string, ps: seq<real>) returns (prob: real)
    ensures prob == Gate(gateType, ps)
  {
    prob := 1.0;
    var k := 0;
    if gateType == "AND" {
      while k < |ps|
        invariant 0 <= k <= |ps|
        invariant prob == Prod(ps[..k])
      {
        assert ps[..k + 1][..k] == ps[..k];
        prob := prob * ps[k];
        k := k + 1;
      }
    } else {
      while k < |ps|
        invariant 0 <= k <= |ps|
        invariant prob == CoProd(ps[..k])
      {
        assert ps[..k + 1][..k] == ps[..k];
        prob := prob * (1.0 - ps[k]);
        k := k + 1;
      }
      prob := 1.0 - prob;
    }
    assert ps[..k] == ps;
  }

  /** Two children at 0.5 give 0.25 under AND and 0.75 under OR or an unnamed gate. */
  lemma GateExamples()
    ensures Gate("AND", [0.5, 0.5]) == 0.25
    ensures Gate("OR", [0.5, 0.5]) == 0.75
    ensures Gate("", [0.5, 0.5]) == 0.75
  {
    assert [0.5, 0.5][..1] == [0.5];
    assert [0.5][..0] == [];
  }

  predicate InUnit(ps: seq<real>)
  {
    forall i :: 0 <= i < |ps| ==> 0.0 <= ps[i] <= 1.0
  }

  lemma {:induction false} ProdsInUnit(ps: seq<real>)
    requires InUnit(ps)
    ensures 0.0 <= Prod(ps) <= 1.0 && 0.0 <= CoProd(ps) <= 1.0
    decreases |ps|
  {
    if ps != [] {
      var n := |ps| - 1;
      assert InUnit(ps[..n]);
      ProdsInUnit(ps[..n]);
      MulUnit(Prod(ps[..n]), ps[n]);
      MulUnit(CoProd(ps[..n]), 1.0 - ps[n]);
    }
  }

  lemma MulUnit(a: real, b: real)
    requires 0.0 <= a <= 1.0 && 0.0 <= b <= 1.0
    ensures 0.0 <= a * b <= a
  {
  }

  lemma {:induction false} ProdsMonotone(xs: seq<real>, ys: seq<real>)
    requires |xs| == |ys| && InUnit(xs) && InUnit(ys)
    requires forall i :: 0 <= i < |xs| ==> xs[i] <= ys[i]
    ensures Prod(xs) <= Prod(ys)
    ensures CoProd(xs) >= CoProd(ys)
    decreases |xs|
  {
    if xs != [] {
      var n := |xs| - 1;
      assert InUnit(xs[..n]) && InUnit(ys[..n]);
      ProdsMonotone(xs[..n], ys[..n]);
      ProdsInUnit(xs[..n]);
      ProdsInUnit(ys[..n]);
      MulMonotone(Prod(xs[..n]), Prod(ys[..n]), xs[n], ys[n]);
      MulMonotone(CoProd(ys[..n]), CoProd(xs[..n]), 1.0 - ys[n], 1.0 - xs[n]);
    }
  }

  lemma MulMonotone(a: real, b: real, c: real, d: real)
    requires 0.0 <= a <= b && 0.0 <= c <= d
    ensures a * c <= b * d
  {
    assert a * c <= b * c;
    assert b * c <= b * d;
  }

  /** With every input in [0, 1], a gate's output is in [0, 1] and grows with each input. */
  lemma GateFacts(gateType: string, xs: seq<real>, ys: seq<real>)
    requires |xs| == |ys| && InUnit(xs) && InUnit(ys)
    requires forall i :: 0 <= i < |xs| ==> xs[i] <= ys[i]
    ensures 0.0 <= Gate(gateType, xs) <= 1.0
    ensures Gate(gateType, xs) <= Gate(gateType, ys)
  {
    ProdsInUnit(xs);
    ProdsMonotone(xs, ys);
  }

  // ---------------------------------------------------------------------------
  // The memoised evaluation, as Python performs it.

  /** A BASIC node's value: its probability, or 0.01 when none is stored (0.0 stays 0.0). */
  function BasicValue(n: FtaNode): real
  {
    if n.probability.Some? then n.probability.value else 0.01
  }

  function ChildrenOf(ch: ChildMap, id: int): seq<int>
  {
    if id in ch then ch[id] else []
  }

  /**
   * `_calc_node_prob(id, ..., result)`: the node's value and the memo after the call, or
   * None where the nesting exceeds the recursion limit.
   */
  function Calc(g: NodeMap, ch: ChildMap, id: int, memo: Memo, fuel: nat): Option<(real, Memo)>
    decreases fuel, 0, 0
  {
    if id in memo then Some((memo[id], memo))
    else if id !in g then Some((0.0, memo))
    else if g[id].nodeType == "BASIC" then Some((BasicValue(g[id]), memo[id := BasicValue(g[id])]))
    else if ChildrenOf(ch, id) == [] then Some((0.0, memo[id := 0.0]))
    else if fuel == 0 then None
    else
      var r := CalcList(g, ch, ChildrenOf(ch, id), memo, fuel - 1);
      if r.None? then None
      else
        var p := Gate(g[id].gateType, r.value.0);
        Some((p, r.value.1[id := p]))
  }

  /** The list comprehension over the children, left to right, threading the memo. */
  function CalcList(g: NodeMap, ch: ChildMap, cs: seq<int>, memo: Memo, fuel: nat): Option<(seq<real>, Memo)>
    decreases fuel, 1, |cs|
  {
    if cs == [] then Some(([], memo))
    else
      var r := CalcList(g, ch, cs[..|cs| - 1], memo, fuel);
      if r.None? then None
      else
        var c := Calc(g, ch, cs[|cs| - 1], r.value.1, fuel);
        if c.None? then None else Some((r.value.0 + [c.value.0], c.value.1))
  }

  /** `_calculate_probabilities`: a fresh memo filled from the top node down. */
  function Probabilities(g: NodeMap, ch: ChildMap, top: int, fuel: nat): Option<Memo>
  {
    var r := Calc(g, ch, top, map[], fuel);
    if r.None? then None else Some(r.value.1)
  }

  function MemoGet(m: Memo, id: int): real
  {
    if id in m then m[id] else 0.0
  }

  /** `probs.get(top_node_id, 0)` after a fresh evaluation. */
  function TopProb(g: NodeMap, ch: ChildMap, top: int, fuel: nat): Option<real>
  {
    var m := Probabilities(g, ch, top, fuel);
    if m.None? then None else Some(MemoGet(m.value, top))
  }

  /** A stored value is never recomputed or overwritten: the memo only grows. */
  lemma {:induction false} CalcKeepsMemo(g: NodeMap, ch: ChildMap, id: int, memo: Memo, fuel: nat)
    requires Calc(g, ch, id, memo, fuel).Some?
    ensures var m := Calc(g, ch, id, memo, fuel).value.1;
      forall k :: k in memo ==> k in m && m[k] == memo[k]
    decreases fuel, 0, 0
  {
    if id !in memo && id in g && g[id].nodeType != "BASIC" && ChildrenOf(ch, id) != [] {
      CalcListKeepsMemo(g, ch, ChildrenOf(ch, id), memo, fuel - 1);
    }
  }

  lemma {:induction false} CalcListKeepsMemo(g: NodeMap, ch: ChildMap, cs: seq<int>, memo: Memo, fuel: nat)
    requires CalcList(g, ch, cs, memo, fuel).Some?
    ensures var m := CalcList(g, ch, cs, memo, fuel).value.1;
      forall k :: k in memo ==> k in m && m[k] == memo[k]
    decreases fuel, 1, |cs|
  {
    if cs != [] {
      var r := CalcList(g, ch, cs[..|cs| - 1], memo, fuel);
      CalcListKeepsMemo(g, ch, cs[..|cs| - 1], memo, fuel);
      CalcKeepsMemo(g, ch, cs[|cs| - 1], r.value.1, fuel);
    }
  }

  // ---------------------------------------------------------------------------
  // The meaning of the evaluation on a tree without cycles: a ghost rank that drops
  // from every gate to each of its known children.

  predicate IsGateNode(g: NodeMap, id: int)
  {
    id in g && g[id].nodeType != "BASIC"
  }

  ghost predicate Ranked(g: NodeMap, ch: ChildMap, rank: map<int, nat>)
  {
    forall id :: IsGateNode(g, id) ==>
      id in rank && forall c :: c in ChildrenOf(ch, id) && IsGateNode(g, c) ==> c in rank && rank[c] < rank[id]
  }

  function Height(g: NodeMap, rank: map<int, nat>, id: int): nat
  {
    if IsGateNode(g, id) && id in rank then rank[id] + 1 else 0
  }

  /** The probability of a node by the AND/OR rules, without a memo. */
  ghost function NodeProb(g: NodeMap, ch: ChildMap, rank: map<int, nat>, id: int): real
    requires Ranked(g, ch, rank)
    decreases Height(g, rank, id)
  {
    if id !in g then 0.0
    else if g[id].nodeType == "BASIC" then BasicValue(g[id])
    else
      var cs := ChildrenOf(ch, id);
      if cs == [] then 0.0
      else Gate(g[id].gateType, ChildProbs(g, ch, rank, id, cs))
  }

  ghost function ChildProbs(g: NodeMap, ch: ChildMap, rank: map<int, nat>, id: int, cs: seq<int>): (ps: seq<real>)
    requires Ranked(g, ch, rank) && IsGateNode(g, id) && cs <= ChildrenOf(ch, id)
    ensures |ps| == |cs|
    decreases Height(g, rank, id), |cs|
  {
    if cs == [] then []
    else
      assert cs[|cs| - 1] == ChildrenOf(ch, id)[|cs| - 1];
      ChildProbs(g, ch, rank, id, cs[..|cs| - 1]) + [NodeProb(g, ch, rank, cs[|cs| - 1])]
  }

  ghost predicate MemoSound(g: NodeMap, ch: ChildMap, rank: map<int, nat>, memo: Memo)
    requires Ranked(g, ch, rank)
  {
    forall k :: k in memo ==> memo[k] == NodeProb(g, ch, rank, k)
  }

  /**
   * Memoisation is transparent: on a ranked tree, with a recursion limit at least the
   * node's height, the memoised evaluation succeeds, returns the AND/OR value of the
   * node, records it, and leaves only such values in the memo.
   */
  lemma {:induction false} CalcAgrees(g: NodeMap, ch: ChildMap, rank: map<int, nat>, id: int, memo: Memo, fuel: nat)
    requires Ranked(g, ch, rank) && MemoSound(g, ch, rank, memo)
    requires Height(g, rank, id) <= fuel
    ensures Calc(g, ch, id, memo, fuel).Some?
    ensures Calc(g, ch, id, memo, fuel).value.0 == NodeProb(g, ch, rank, id)
    ensures MemoSound(g, ch, rank, Calc(g, ch, id, memo, fuel).value.1)
    ensures id in g ==> id in Calc(g, ch, id, memo, fuel).value.1
    decreases fuel, 0, 0
  {
    if id !in memo && id in g && g[id].nodeType != "BASIC" && ChildrenOf(ch, id) != [] {
      var cs := ChildrenOf(ch, id);
      forall i | 0 <= i < |cs|
        ensures Height(g, rank, cs[i]) <= fuel - 1
      {
        assert cs[i] in ChildrenOf(ch, id);
      }
      CalcListAgrees(g, ch, rank, id, cs, memo, fuel - 1);
    }
  }

  lemma {:induction false} CalcListAgrees(g: NodeMap, ch: ChildMap, rank: map<int, nat>, id: int, cs: seq<int>,
                                          memo: Memo, fuel: nat)
    requires Ranked(g, ch, rank) && MemoSound(g, ch, rank, memo)
    requires IsGateNode(g, id) && cs <= ChildrenOf(ch, id)
    requires forall i :: 0 <= i < |cs| ==> Height(g, rank, cs[i]) <= fuel
    ensures CalcList(g, ch, cs, memo, fuel).Some?
    ensures CalcList(g, ch, cs, memo, fuel).value.0 == ChildProbs(g, ch, rank, id, cs)
    ensures MemoSound(g, ch, rank, CalcList(g, ch, cs, memo, fuel).value.1)
    decreases fuel, 1, |cs|
  {
    if cs != [] {
      var n := |cs| - 1;
      CalcListAgrees(g, ch, rank, id, cs[..n], memo, fuel);
      var r := CalcList(g, ch, cs[..n], memo, fuel);
      CalcAgrees(g, ch, rank, cs[n], r.value.1, fuel);
    }
  }

  /** On a ranked tree the evaluation of the top node gives its AND/OR value. */
  lemma TopProbAgrees(g: NodeMap, ch: ChildMap, rank: map<int, nat>, top: int, fuel: nat)
    requires Ranked(g, ch, rank) && Height(g, rank, top) <= fuel
    ensures TopProb(g, ch, top, fuel) == Some(NodeProb(g, ch, rank, top))
  {
    CalcAgrees(g, ch, rank, top, map[], fuel);
  }

  predicate BasicsInUnit(g: NodeMap)
  {
    forall id :: id in g && g[id].nodeType == "BASIC" ==> 0.0 <= BasicValue(g[id]) <= 1.0
  }

  /** Every node's probability is in [0, 1] when every basic event's is. */
  lemma {:induction false} NodeProbInUnit(g: NodeMap, ch: ChildMap, rank: map<int, nat>, id: int)
    requires Ranked(g, ch, rank) && BasicsInUnit(g)
    ensures 0.0 <= NodeProb(g, ch, rank, id) <= 1.0
    decreases Height(g, rank, id)
  {
    if id in g && g[id].nodeType != "BASIC" && ChildrenOf(ch, id) != [] {
      var cs := ChildrenOf(ch, id);
      ChildProbsInUnit(g, ch, rank, id, cs);
      ProdsInUnit(ChildProbs(g, ch, rank, id, cs));
    }
  }

  lemma {:induction false} ChildProbsInUnit(g: NodeMap, ch: ChildMap, rank: map<int, nat>, id: int, cs: seq<int>)
    requires Ranked(g, ch, rank) && BasicsInUnit(g) && IsGateNode(g, id) && cs <= ChildrenOf(ch, id)
    ensures InUnit(ChildProbs(g, ch, rank, id, cs))
    decreases Height(g, rank, id), |cs|
  {
    if cs != [] {
      var n := |cs| - 1;
      assert cs[n] == ChildrenOf(ch, id)[n];
      ChildProbsInUnit(g, ch, rank, id, cs[..n]);
      NodeProbInUnit(g, ch, rank, cs[n]);
    }
  }

  /** The tree with one basic event's stored probability replaced by `p`. */
  function SetProb(g: NodeMap, b: int, p: real): (g': NodeMap)
    requires b in g
    ensures g'.Keys == g.Keys
  {
    g[b := g[b].(probability := Some(p))]
  }

  lemma SetProbSame(g: NodeMap, b: int, p: real)
    requires b in g && g[b].probability == Some(p)
    ensures SetProb(g, b, p) == g
  {
    assert g[b].(probability := Some(p)) == g[b];
  }

  lemma SetProbKeepsRank(g: NodeMap, ch: ChildMap, rank: map<int, nat>, b: int, p: real)
    requires b in g && g[b].nodeType == "BASIC"
    ensures forall id :: IsGateNode(SetProb(g, b, p), id) == IsGateNode(g, id)
    ensures Ranked(g, ch, rank) ==> Ranked(SetProb(g, b, p), ch, rank)
    ensures BasicsInUnit(g) && 0.0 <= p <= 1.0 ==> BasicsInUnit(SetProb(g, b, p))
  {
  }

  /** Raising one basic event's probability never lowers any node's probability. */
  lemma {:induction false} NodeProbMonotone(g: NodeMap, ch: ChildMap, rank: map<int, nat>, b: int, p: real, q: real, id: int)
    requires Ranked(g, ch, rank) && BasicsInUnit(g)
    requires b in g && g[b].nodeType == "BASIC" && 0.0 <= p <= q <= 1.0
    ensures Ranked(SetProb(g, b, p), ch, rank) && Ranked(SetProb(g, b, q), ch, rank)
    ensures NodeProb(SetProb(g, b, p), ch, rank, id) <= NodeProb(SetProb(g, b, q), ch, rank, id)
    decreases Height(g, rank, id)
  {
    SetProbKeepsRank(g, ch, rank, b, p);
    SetProbKeepsRank(g, ch, rank, b, q);
    if id in g && g[id].nodeType != "BASIC" && ChildrenOf(ch, id) != [] {
      var cs := ChildrenOf(ch, id);
      ChildProbsMonotone(g, ch, rank, b, p, q, id, cs);
      GateFacts(g[id].gateType, ChildProbs(SetProb(g, b, p), ch, rank, id, cs),
                ChildProbs(SetProb(g, b, q), ch, rank, id, cs));
    }
  }

  lemma {:induction false} ChildProbsMonotone(g: NodeMap, ch: ChildMap, rank: map<int, nat>, b: int, p: real, q: real,
                                              id: int, cs: seq<int>)
    requires Ranked(g, ch, rank) && BasicsInUnit(g)
    requires b in g && g[b].nodeType == "BASIC" && 0.0 <= p <= q <= 1.0
    requires IsGateNode(g, id) && cs <= ChildrenOf(ch, id)
    ensures Ranked(SetProb(g, b, p), ch, rank) && Ranked(SetProb(g, b, q), ch, rank)
    ensures IsGateNode(SetProb(g, b, p), id) && IsGateNode(SetProb(g, b, q), id)
    ensures var xs := ChildProbs(SetProb(g, b, p), ch, rank, id, cs);
      var ys := ChildProbs(SetProb(g, b, q), ch, rank, id, cs);
      InUnit(xs) && InUnit(ys) && forall i :: 0 <= i < |cs| ==> xs[i] <= ys[i]
    decreases Height(g, rank, id), |cs|
  {
    SetProbKeepsRank(g, ch, rank, b, p);
    SetProbKeepsRank(g, ch, rank, b, q);
    ChildProbsInUnit(SetProb(g, b, p), ch, rank, id, cs);
    ChildProbsInUnit(SetProb(g, b, q), ch, rank, id, cs);
    if cs != [] {
      var n := |cs| - 1;
      assert cs[n] == ChildrenOf(ch, id)[n];
      ChildProbsMonotone(g, ch, rank, b, p, q, id, cs[..n]);
      NodeProbMonotone(g, ch, rank, b, p, q, cs[n]);
    }
  }

  /** Two trees that agree on every node's kind, gate, name and basic value agree on every probability. */
  lemma {:induction false} NodeProbCongruent(g1: NodeMap, g2: NodeMap, ch: ChildMap, rank: map<int, nat>, id: int)
    requires Ranked(g1, ch, rank) && Ranked(g2, ch, rank) && SameShape(g1, g2)
    ensures NodeProb(g1, ch, rank, id) == NodeProb(g2, ch, rank, id)
    decreases Height(g1, rank, id)
  {
    if id in g1 && g1[id].nodeType != "BASIC" && ChildrenOf(ch, id) != [] {
      ChildProbsCongruent(g1, g2, ch, rank, id, ChildrenOf(ch, id));
    }
  }

  lemma {:induction false} ChildProbsCongruent(g1: NodeMap, g2: NodeMap, ch: ChildMap, rank: map<int, nat>, id: int,
                                               cs: seq<int>)
    requires Ranked(g1, ch, rank) && Ranked(g2, ch, rank) && SameShape(g1, g2)
    requires IsGateNode(g1, id) && cs <= ChildrenOf(ch, id)
    ensures IsGateNode(g2, id)
    ensures ChildProbs(g1, ch, rank, id, cs) == ChildProbs(g2, ch, rank, id, cs)
    decreases Height(g1, rank, id), |cs|
  {
    if cs != [] {
      var n := |cs| - 1;
      assert cs[n] == ChildrenOf(ch, id)[n];
      ChildProbsCongruent(g1, g2, ch, rank, id, cs[..n]);
      NodeProbCongruent(g1, g2, ch, rank, cs[n]);
    }
  }

  predicate SameShape(g1: NodeMap, g2: NodeMap)
  {
    g1.Keys == g2.Keys &&
    forall id :: id in g1 ==>
      && g1[id].nodeType == g2[id].nodeType
      && g1[id].gateType == g2[id].gateType
      && g1[id].name == g2[id].name
      && (g1[id].nodeType == "BASIC" ==> BasicValue(g1[id]) == BasicValue(g2[id]))
  }

  // ---------------------------------------------------------------------------
  // The node dictionary and the children map `_run_fta` builds.

  /** `{n.id: n for n in nodes}`: a later record with the same id replaces an earlier one. */
  function NodeDict(ns: seq<FtaNode>): (g: NodeMap)
    ensures forall i :: 0 <= i < |ns| ==> ns[i].id in g
  {
    if ns == [] then map[] else NodeDict(ns[..|ns| - 1])[ns[|ns| - 1].id := ns[|ns| - 1]]
  }

  /** The keys of that dictionary in insertion order (its `values()` order). */
  function KeyOrder(ns: seq<FtaNode>): seq<int>
  {
    if ns == [] then []
    else
      var o := KeyOrder(ns[..|ns| - 1]);
      if ns[|ns| - 1].id in o then o else o + [ns[|ns| - 1].id]
  }

  lemma {:induction false} KeyOrderFacts(ns: seq<FtaNode>)
    ensures forall id :: id in KeyOrder(ns) <==> id in NodeDict(ns)
    ensures forall i, j :: 0 <= i < j < |KeyOrder(ns)| ==> KeyOrder(ns)[i] != KeyOrder(ns)[j]
  {
    if ns != [] {
      KeyOrderFacts(ns[..|ns| - 1]);
    }
  }

  /** `edge_dao.get_children(pid)`: the children of `pid` in the order the edge table holds them. */
  function EdgeChildren(edges: seq<FtaEdge>, pid: int): (cs: seq<int>)
    ensures forall c :: c in cs <==> FtaEdge(pid, c) in edges
  {
    if edges == [] then []
    else
      var e := edges[|edges| - 1];
      EdgeChildren(edges[..|edges| - 1], pid) + (if e.parentId == pid then [e.childId] else [])
  }

  /** `children_map`: every node's id mapped to its children. */
  function ChildrenMap(ns: seq<FtaNode>, edges: seq<FtaEdge>): (ch: ChildMap)
    ensures ch.Keys == NodeDict(ns).Keys
    ensures forall id :: id in ch ==> ch[id] == EdgeChildren(edges, id)
  {
    if ns == [] then map[]
    else ChildrenMap(ns[..|ns| - 1], edges)[ns[|ns| - 1].id := EdgeChildren(edges, ns[|ns| - 1].id)]
  }

  predicate FirstTopAt(ns: seq<FtaNode>, i: int)
  {
    0 <= i < |ns| && ns[i].nodeType == "TOP" && forall j :: 0 <= j < i ==> ns[j].nodeType != "TOP"
  }

  /**
   * `get_top_node`: a TOP node of the mission. The query has no `ORDER BY`; the model assumes
   * that `fetchone` returns the first one in id order.
   */
  function FindTop(ns: seq<FtaNode>): (t: Option<FtaNode>)
    ensures t.None? <==> forall i :: 0 <= i < |ns| ==> ns[i].nodeType != "TOP"
    ensures t.Some? ==> t.value.nodeType == "TOP" && exists i :: FirstTopAt(ns, i) && ns[i] == t.value
  {
    if ns == [] then None
    else if ns[0].nodeType == "TOP" then Some(ns[0])
    else
      var t := FindTop(ns[1..]);
      if t.Some? then
        var i :| FirstTopAt(ns[1..], i) && ns[1..][i] == t.value;
        assert FirstTopAt(ns, i + 1);
        t
      else t
  }

  // ---------------------------------------------------------------------------
  // The one-at-a-time sensitivity over the basic events.

  datatype SensItem = SensItem(
    nodeId: int,
    nodeName: string,
    baseProbability: real,
    minusProb: real,
    plusProb: real,
    impactScore: real)

  function ImpactOf(s: SensItem): real { s.impactScore }

  /**
   * How the loop treats the basic event it perturbs. `AsWritten` perturbs around
   * `probability if probability else 0.01` and stores that value back afterwards;
   * `Corrected` perturbs around the value the evaluation uses and restores the
   * record as it was.
   */
  datatype Variant = AsWritten | Corrected

  /** `basic_node.probability if basic_node.probability else 0.01`: 0.0 also becomes 0.01. */
  function OrigProb(n: FtaNode): real
  {
    if n.probability.Some? && n.probability.value != 0.0 then n.probability.value else 0.01
  }

  function PerturbBase(v: Variant, n: FtaNode): real
  {
    if v.AsWritten? then OrigProb(n) else BasicValue(n)
  }

  /** The tree after the loop body's final assignment to the perturbed node. */
  function Restore(v: Variant, g: NodeMap, b: int): (g': NodeMap)
    requires b in g
    ensures g'.Keys == g.Keys
  {
    if v.AsWritten? then SetProb(g, b, OrigProb(g[b])) else g
  }

  function MinusOf(orig: real, delta: real): real { MaxReal(0.0, orig * (1.0 - delta)) }
  function PlusOf(orig: real, delta: real): real { MinReal(1.0, orig * (1.0 + delta)) }

  /** One pass of the loop body for basic event `b`: its item and the tree it leaves behind. */
  function Perturb(v: Variant, g: NodeMap, ch: ChildMap, top: int, fuel: nat, base: real, delta: real, b: int)
    : Option<(SensItem, NodeMap)>
    requires b in g
  {
    var orig := PerturbBase(v, g[b]);
    var pm := TopProb(SetProb(g, b, MinusOf(orig, delta)), ch, top, fuel);
    var pp := TopProb(SetProb(g, b, PlusOf(orig, delta)), ch, top, fuel);
    if pm.None? || pp.None? then None
    else
      var impact := MaxReal(AbsReal(pm.value - base), AbsReal(pp.value - base));
      Some((SensItem(b, g[b].name, orig, pm.value, pp.value, impact), Restore(v, g, b)))
  }

  /** The loop over the basic events, in order, each pass seeing the tree the previous one left. */
  function SensLoop(v: Variant, g: NodeMap, ch: ChildMap, top: int, fuel: nat, base: real, delta: real, bs: seq<int>)
    : (r: Option<(seq<SensItem>, NodeMap)>)
    requires forall i :: 0 <= i < |bs| ==> bs[i] in g
    ensures r.Some? ==> |r.value.0| == |bs| && r.value.1.Keys == g.Keys
  {
    if bs == [] then Some(([], g))
    else
      var r := SensLoop(v, g, ch, top, fuel, base, delta, bs[..|bs| - 1]);
      if r.None? then None
      else
        var p := Perturb(v, r.value.1, ch, top, fuel, base, delta, bs[|bs| - 1]);
        if p.None? then None else Some((r.value.0 + [p.value.0], p.value.1))
  }

  lemma {:induction false} SensLoopPrefixNone(v: Variant, g: NodeMap, ch: ChildMap, top: int, fuel: nat, base: real,
                                              delta: real, bs: seq<int>, k: nat)
    requires forall i :: 0 <= i < |bs| ==> bs[i] in g
    requires k <= |bs| && SensLoop(v, g, ch, top, fuel, base, delta, bs[..k]).None?
    ensures SensLoop(v, g, ch, top, fuel, base, delta, bs).None?
    decreases |bs| - k
  {
    if k < |bs| {
      assert bs[..k + 1][..k] == bs[..k];
      SensLoopPrefixNone(v, g, ch, top, fuel, base, delta, bs, k + 1);
    } else {
      assert bs[..k] == bs;
    }
  }

  /** `[n for n in node_dict.values() if n.node_type == "BASIC"]`, as ids. */
  function BasicIds(g: NodeMap, order: seq<int>): (bs: seq<int>)
    ensures forall i :: 0 <= i < |bs| ==> bs[i] in g && g[bs[i]].nodeType == "BASIC"
  {
    Filter(order, (id: int) => id in g && g[id].nodeType == "BASIC")
  }

  /**
   * `_sensitivity_analysis`: None where Python raises (the recursion limit, a
   * non-numeric delta once there is a basic event, a `top_n` a slice rejects).
   */
  function Sensitivity(v: Variant, g: NodeMap, ch: ChildMap, order: seq<int>, top: int, fuel: nat,
                       delta: Option<real>, stop: Option<SliceStop>): Option<seq<SensItem>>
  {
    var bs := BasicIds(g, order);
    if bs == [] then Some([])
    else
      var base := TopProb(g, ch, top, fuel);
      if base.None? || delta.None? then None
      else
        var r := SensLoop(v, g, ch, top, fuel, base.value, delta.value, bs);
        if r.None? || stop.None? then None
        else Some(PySlice(SortDesc(r.value.0, ImpactOf), stop.value))
  }

  /**
   * The tree with every basic event of `bs` stored as `probability if probability else 0.01`,
   * one event after the other.
   */
  function Normalized(g: NodeMap, bs: seq<int>): (h: NodeMap)
    ensures h.Keys == g.Keys
  {
    if bs == [] then g
    else
      var h := Normalized(g, bs[..|bs| - 1]);
      var b := bs[|bs| - 1];
      if b in g then SetProb(h, b, OrigProb(g[b])) else h
  }

  lemma NormalizedNone(g: NodeMap, bs: seq<int>)
    requires bs == []
    ensures Normalized(g, bs) == g
  {
  }

  /** Storing one more event's `orig_prob` extends the normalised set by that event. */
  lemma NormalizedSnoc(g: NodeMap, bs: seq<int>, b: int)
    requires b in g
    ensures b in Normalized(g, bs)
    ensures SetProb(Normalized(g, bs), b, OrigProb(g[b])) == Normalized(g, bs + [b])
  {
    assert (bs + [b])[..|bs|] == bs;
  }

  /** Each record of the normalised tree: the events of `bs` hold their `orig_prob`, the rest are as they were. */
  lemma {:induction false} NormalizedAt(g: NodeMap, bs: seq<int>, id: int)
    requires id in g
    ensures Normalized(g, bs)[id] == if id in bs then g[id].(probability := Some(OrigProb(g[id]))) else g[id]
  {
    if bs != [] {
      var n := |bs| - 1;
      NormalizedAt(g, bs[..n], id);
      assert id in bs <==> id in bs[..n] || id == bs[n] by {
        assert bs == bs[..n] + [bs[n]];
      }
    }
  }

  /** Normalising keeps a record's name and kind, and its `orig_prob`. */
  lemma NormalizedKeeps(g: NodeMap, bs: seq<int>, b: int)
    requires b in g
    ensures var n := Normalized(g, bs)[b];
      n.name == g[b].name && n.nodeType == g[b].nodeType && OrigProb(n) == OrigProb(g[b])
  {
    NormalizedAt(g, bs, b);
  }

  // ---------------------------------------------------------------------------
  // The tree `_run_fta` works on, as an object: the node dictionary whose basic events
  // the sensitivity analysis rewrites, the children map, and the memo of the
  // evaluation in progress.

  class FaultTree {
    var nodes: NodeMap
    const order: seq<int>
    const children: ChildMap
    var memo: Memo

    /** The dictionary comprehension and the children loop of `_run_fta`. */
    constructor (ns: seq<FtaNode>, edges: seq<FtaEdge>)
      ensures nodes == NodeDict(ns) && order == KeyOrder(ns) && children == ChildrenMap(ns, edges)
      ensures memo == map[]
    {
      var g: NodeMap := map[];
      var o: seq<int> := [];
      var cm: ChildMap := map[];
      var k := 0;
      while k < |ns|
        invariant 0 <= k <= |ns|
        invariant g == NodeDict(ns[..k]) && o == KeyOrder(ns[..k]) && cm == ChildrenMap(ns[..k], edges)
      {
        assert ns[..k + 1][..k] == ns[..k];
        if ns[k].id !in o {
          o := o + [ns[k].id];
        }
        g := g[ns[k].id := ns[k]];
        cm := cm[ns[k].id := EdgeChildren(edges, ns[k].id)];
        k := k + 1;
      }
      assert ns[..k] == ns;
      nodes := g;
      order := o;
      children := cm;
      memo := map[];
    }

    /** `_calc_node_prob`: recursion on the children, the memo updated in place. */
    method CalcNodeProb(id: int, fuel: nat) returns (p: Option<real>)
      modifies this
      ensures nodes == old(nodes)
      ensures var r := Calc(nodes, children, id, old(memo), fuel);
        p.Some? == r.Some? && (r.Some? ==> p.value == r.value.0 && memo == r.value.1)
      decreases fuel
    {
      if id in memo {
        return Some(memo[id]);
      }
      if id !in nodes {
        return Some(0.0);
      }
      var node := nodes[id];
      if node.nodeType == "BASIC" {
        var prob := BasicValue(node);
        memo := memo[id := prob];
        return Some(prob);
      }
      var cs := ChildrenOf(children, id);
      if cs == [] {
        memo := memo[id := 0.0];
        return Some(0.0);
      }
      if fuel == 0 {
        return None;
      }
      ghost var memo0 := memo;
      var ps: seq<real> := [];
      var k := 0;
      while k < |cs|
        invariant 0 <= k <= |cs|
        invariant nodes == old(nodes)
        invariant CalcList(nodes, children, cs[..k], memo0, fuel - 1) == Some((ps, memo))
      {
        assert cs[..k + 1][..k] == cs[..k];
        var c := CalcNodeProb(cs[k], fuel - 1);
        if c.None? {
          CalcListPrefixNone(nodes, children, cs, memo0, fuel - 1, k + 1);
          return None;
        }
        ps := ps + [c.value];
        k := k + 1;
      }
      assert cs[..k] == cs;
      var prob := GateValue(node.gateType, ps);
      memo := memo[id := prob];
      p := Some(prob);
    }

    /** `_calculate_probabilities`: a fresh memo, filled from the top node. */
    method CalculateProbabilities(top: int, fuel: nat) returns (r: Option<Memo>)
      modifies this
      ensures nodes == old(nodes)
      ensures r == Probabilities(nodes, children, top, fuel)
    {
      memo := map[];
      var p := CalcNodeProb(top, fuel);
      r := if p.None? then None else Some(memo);
    }

    /**
     * `_sensitivity_analysis`, as written: on success every basic event has been stored
     * as `probability if probability else 0.01`, and every other record is as it was.
     */
    method SensitivityAnalysis(top: int, fuel: nat, delta: Option<real>, stop: Option<SliceStop>)
      returns (r: Option<seq<SensItem>>)
      modifies this
      ensures r == Sensitivity(AsWritten, old(nodes), children, order, top, fuel, delta, stop)
      ensures r.Some? ==> nodes == Normalized(old(nodes), BasicIds(old(nodes), order))
    {
      var bs := BasicIds(nodes, order);
      if bs == [] {
        NormalizedNone(nodes, bs);
        return Some([]);
      }
      var baseProbs := CalculateProbabilities(top, fuel);
      if baseProbs.None? || delta.None? {
        return None;
      }
      var base := MemoGet(baseProbs.value, top);
      var results := SensitivityLoop(bs, top, fuel, base, delta.value);
      if results.None? || stop.None? {
        return None;
      }
      r := Some(PySlice(SortDesc(results.value, ImpactOf), stop.value));
    }

    /**
     * The loop over the basic events, each pass seeing the tree the previous one left; on
     * success the visited events are stored as `probability if probability else 0.01`.
     */
    method SensitivityLoop(bs: seq<int>, top: int, fuel: nat, base: real, delta: real)
      returns (r: Option<seq<SensItem>>)
      requires forall i :: 0 <= i < |bs| ==> bs[i] in nodes
      modifies this
      ensures var q := SensLoop(AsWritten, old(nodes), children, top, fuel, base, delta, bs);
        r.Some? == q.Some? && (q.Some? ==> r.value == q.value.0 && nodes == q.value.1)
      ensures r.Some? ==> nodes == Normalized(old(nodes), bs)
    {
      ghost var g0 := nodes;
      var results: seq<SensItem> := [];
      var k := 0;
      while k < |bs|
        invariant 0 <= k <= |bs|
        invariant nodes.Keys == g0.Keys
        invariant SensLoop(AsWritten, g0, children, top, fuel, base, delta, bs[..k]) == Some((results, nodes))
      {
        SensLoopNext(AsWritten, g0, children, top, fuel, base, delta, bs, k);
        var item := PerturbOne(bs[k], top, fuel, base, delta);
        if item.None? {
          SensLoopPrefixNone(AsWritten, g0, children, top, fuel, base, delta, bs, k + 1);
          return None;
        }
        results := results + [item.value];
        k := k + 1;
      }
      assert bs[..k] == bs;
      assert nodes == Normalized(g0, bs) by {
        AsWrittenEnds(g0, children, top, fuel, base, delta, bs);
      }
      r := Some(results);
    }

    /**
     * The loop body for basic event `b`: perturb down and up around
     * `probability if probability else 0.01`, then store that value in the record.
     */
    method PerturbOne(b: int, top: int, fuel: nat, base: real, delta: real) returns (item: Option<SensItem>)
      requires b in nodes
      modifies this
      ensures var q := Perturb(AsWritten, old(nodes), children, top, fuel, base, delta, b);
        item.Some? == q.Some? && (q.Some? ==> item.value == q.value.0 && nodes == q.value.1)
    {
      ghost var g0 := nodes;
      var node := nodes[b];
      var orig := if node.probability.Some? && node.probability.value != 0.0 then node.probability.value else 0.01;
      assert orig == OrigProb(g0[b]);
      nodes := nodes[b := node.(probability := Some(MinusOf(orig, delta)))];
      ghost var gMinus := nodes;
      var probsMinus := CalculateProbabilities(top, fuel);
      assert probsMinus == Probabilities(SetProb(g0, b, MinusOf(orig, delta)), children, top, fuel) by {
        assert gMinus == SetProb(g0, b, MinusOf(orig, delta));
      }
      nodes := nodes[b := node.(probability := Some(PlusOf(orig, delta)))];
      ghost var gPlus := nodes;
      var probsPlus := CalculateProbabilities(top, fuel);
      assert probsPlus == Probabilities(SetProb(g0, b, PlusOf(orig, delta)), children, top, fuel) by {
        assert gPlus == SetProb(g0, b, PlusOf(orig, delta));
      }
      if probsMinus.None? || probsPlus.None? {
        return None;
      }
      nodes := nodes[b := node.(probability := Some(orig))];
      assert nodes == Restore(AsWritten, g0, b);
      var pMinus := MemoGet(probsMinus.value, top);
      var pPlus := MemoGet(probsPlus.value, top);
      var impact := MaxReal(AbsReal(pMinus - base), AbsReal(pPlus - base));
      item := Some(SensItem(b, node.name, orig, pMinus, pPlus, impact));
    }
  }

  lemma {:induction false} CalcListPrefixNone(g: NodeMap, ch: ChildMap, cs: seq<int>, memo: Memo, fuel: nat, k: nat)
    requires k <= |cs| && CalcList(g, ch, cs[..k], memo, fuel).None?
    ensures CalcList(g, ch, cs, memo, fuel).None?
    decreases |cs| - k
  {
    if k < |cs| {
      assert cs[..k + 1][..k] == cs[..k];
      CalcListPrefixNone(g, ch, cs, memo, fuel, k + 1);
    } else {
      assert cs[..k] == cs;
    }
  }

  // ---------------------------------------------------------------------------
  // What the sensitivity loop computes.

  /** The memoised evaluation depends on a tree only through its shape and basic values. */
  lemma {:induction false} CalcCongruent(g1: NodeMap, g2: NodeMap, ch: ChildMap, id: int, memo: Memo, fuel: nat)
    requires SameShape(g1, g2)
    ensures Calc(g1, ch, id, memo, fuel) == Calc(g2, ch, id, memo, fuel)
    decreases fuel, 0, 0
  {
    if id !in memo && id in g1 && g1[id].nodeType != "BASIC" && ChildrenOf(ch, id) != [] && fuel > 0 {
      CalcListCongruent(g1, g2, ch, ChildrenOf(ch, id), memo, fuel - 1);
    }
  }

  lemma {:induction false} CalcListCongruent(g1: NodeMap, g2: NodeMap, ch: ChildMap, cs: seq<int>, memo: Memo, fuel: nat)
    requires SameShape(g1, g2)
    ensures CalcList(g1, ch, cs, memo, fuel) == CalcList(g2, ch, cs, memo, fuel)
    decreases fuel, 1, |cs|
  {
    if cs != [] {
      CalcListCongruent(g1, g2, ch, cs[..|cs| - 1], memo, fuel);
      var r := CalcList(g1, ch, cs[..|cs| - 1], memo, fuel);
      if r.Some? {
        CalcCongruent(g1, g2, ch, cs[|cs| - 1], r.value.1, fuel);
      }
    }
  }

  lemma SetProbCongruent(g1: NodeMap, g2: NodeMap, b: int, p: real)
    requires SameShape(g1, g2) && b in g1
    ensures SameShape(SetProb(g1, b, p), SetProb(g2, b, p))
  {
  }

  /**
   * The corrected loop leaves the tree as it found it, and its i-th item perturbs the i-th
   * basic event of the ORIGINAL tree, one at a time, around the value the evaluation uses.
   */
  lemma {:induction false} CorrectedIsOneAtATime(g: NodeMap, ch: ChildMap, top: int, fuel: nat, base: real, delta: real,
                                                 bs: seq<int>)
    requires forall i :: 0 <= i < |bs| ==> bs[i] in g
    ensures var r := SensLoop(Corrected, g, ch, top, fuel, base, delta, bs);
      r.Some? ==> r.value.1 == g && forall i :: 0 <= i < |bs| ==> OneAtATime(g, ch, top, fuel, base, delta, bs[i], r.value.0[i])
  {
    if bs != [] {
      var n := |bs| - 1;
      CorrectedIsOneAtATime(g, ch, top, fuel, base, delta, bs[..n]);
      var r := SensLoop(Corrected, g, ch, top, fuel, base, delta, bs[..n]);
      if r.Some? {
        var p := Perturb(Corrected, g, ch, top, fuel, base, delta, bs[n]);
        CorrectedPerturbs(g, ch, top, fuel, base, delta, bs[n]);
        if p.Some? {
          OneAtATimeSnoc(g, ch, top, fuel, base, delta, bs, r.value.0, p.value.0);
        }
      }
    }
  }

  /** Items that perturb the events of `bs[..n]` one at a time, followed by one for `bs[n]`. */
  lemma OneAtATimeSnoc(g: NodeMap, ch: ChildMap, top: int, fuel: nat, base: real, delta: real,
                       bs: seq<int>, items: seq<SensItem>, last: SensItem)
    requires |bs| > 0 && |items| == |bs| - 1
    requires forall i :: 0 <= i < |bs| ==> bs[i] in g
    requires forall i :: 0 <= i < |items| ==> OneAtATime(g, ch, top, fuel, base, delta, bs[..|items|][i], items[i])
    requires OneAtATime(g, ch, top, fuel, base, delta, bs[|items|], last)
    ensures forall i :: 0 <= i < |bs| ==> OneAtATime(g, ch, top, fuel, base, delta, bs[i], (items + [last])[i])
  {
    var n := |items|;
    forall i | 0 <= i < |bs|
      ensures OneAtATime(g, ch, top, fuel, base, delta, bs[i], (items + [last])[i])
    {
      if i < n {
        assert bs[i] == bs[..n][i];
      }
    }
  }

  /** One corrected pass restores the tree and perturbs `b` alone. */
  lemma CorrectedPerturbs(g: NodeMap, ch: ChildMap, top: int, fuel: nat, base: real, delta: real, b: int)
    requires b in g
    ensures var p := Perturb(Corrected, g, ch, top, fuel, base, delta, b);
      p.Some? ==> p.value.1 == g && OneAtATime(g, ch, top, fuel, base, delta, b, p.value.0)
  {
  }

  /** The corrected loop succeeds when perturbing each basic event of the original tree does. */
  lemma {:induction false} CorrectedSucceeds(g: NodeMap, ch: ChildMap, top: int, fuel: nat, base: real, delta: real,
                                             bs: seq<int>)
    requires forall i :: 0 <= i < |bs| ==> bs[i] in g
    requires forall i :: 0 <= i < |bs| ==> Perturb(Corrected, g, ch, top, fuel, base, delta, bs[i]).Some?
    ensures SensLoop(Corrected, g, ch, top, fuel, base, delta, bs).Some?
  {
    if bs != [] {
      var n := |bs| - 1;
      assert forall i :: 0 <= i < n ==> bs[..n][i] == bs[i];
      CorrectedSucceeds(g, ch, top, fuel, base, delta, bs[..n]);
      CorrectedIsOneAtATime(g, ch, top, fuel, base, delta, bs[..n]);
    }
  }

  /** An item that perturbs basic event `b` of the tree `g` alone, around the value the evaluation uses. */
  predicate OneAtATime(g: NodeMap, ch: ChildMap, top: int, fuel: nat, base: real, delta: real, b: int, item: SensItem)
    requires b in g
  {
    var v := BasicValue(g[b]);
    && item.nodeId == b && item.nodeName == g[b].name && item.baseProbability == v
    && Some(item.minusProb) == TopProb(SetProb(g, b, MinusOf(v, delta)), ch, top, fuel)
    && Some(item.plusProb) == TopProb(SetProb(g, b, PlusOf(v, delta)), ch, top, fuel)
    && item.impactScore == MaxReal(AbsReal(item.minusProb - base), AbsReal(item.plusProb - base))
  }

  /**
   * The item the loop as written produces for basic event `b` once the events of `seen`
   * have had their passes: `b` perturbed around `probability if probability else 0.01`, in
   * the tree where the events of `seen` are stored that way.
   */
  predicate AsWrittenItem(g: NodeMap, ch: ChildMap, top: int, fuel: nat, base: real, delta: real,
                          seen: seq<int>, b: int, item: SensItem)
    requires b in g
  {
    var h := Normalized(g, seen);
    var v := OrigProb(g[b]);
    && item.nodeId == b && item.nodeName == g[b].name && item.baseProbability == v
    && Some(item.minusProb) == TopProb(SetProb(h, b, MinusOf(v, delta)), ch, top, fuel)
    && Some(item.plusProb) == TopProb(SetProb(h, b, PlusOf(v, delta)), ch, top, fuel)
    && item.impactScore == MaxReal(AbsReal(item.minusProb - base), AbsReal(item.plusProb - base))
  }

  /** Each of `items` is the item the loop as written produces for the basic event at its index. */
  predicate AsWrittenItems(g: NodeMap, ch: ChildMap, top: int, fuel: nat, base: real, delta: real,
                           bs: seq<int>, items: seq<SensItem>)
    requires forall i :: 0 <= i < |bs| ==> bs[i] in g
  {
    |items| == |bs| && forall i :: 0 <= i < |bs| ==> AsWrittenItem(g, ch, top, fuel, base, delta, bs[..i], bs[i], items[i])
  }

  /** One pass as written, after the passes of `seen`: its item, and one more event normalised. */
  lemma AsWrittenPerturbs(g: NodeMap, ch: ChildMap, top: int, fuel: nat, base: real, delta: real,
                          seen: seq<int>, b: int)
    requires b in g
    ensures b in Normalized(g, seen)
    ensures var p := Perturb(AsWritten, Normalized(g, seen), ch, top, fuel, base, delta, b);
      p.Some? ==> p.value.1 == Normalized(g, seen + [b]) && AsWrittenItem(g, ch, top, fuel, base, delta, seen, b, p.value.0)
  {
    NormalizedKeeps(g, seen, b);
    NormalizedSnoc(g, seen, b);
  }

  /** The loop as written ends with every visited event stored as `probability if probability else 0.01`. */
  lemma {:induction false} AsWrittenEnds(g: NodeMap, ch: ChildMap, top: int, fuel: nat, base: real, delta: real,
                                         bs: seq<int>)
    requires forall i :: 0 <= i < |bs| ==> bs[i] in g
    ensures var r := SensLoop(AsWritten, g, ch, top, fuel, base, delta, bs);
      r.Some? ==> r.value.1 == Normalized(g, bs)
  {
    if bs == [] {
      NormalizedNone(g, bs);
    } else {
      var n := |bs| - 1;
      assert bs[..n] + [bs[n]] == bs;
      AsWrittenEnds(g, ch, top, fuel, base, delta, bs[..n]);
      var r := SensLoop(AsWritten, g, ch, top, fuel, base, delta, bs[..n]);
      if r.Some? {
        AsWrittenPerturbs(g, ch, top, fuel, base, delta, bs[..n], bs[n]);
      }
    }
  }

  /** Pass i of the loop as written perturbs the i-th basic event in the tree the earlier passes left. */
  lemma {:induction false} AsWrittenPassAt(g: NodeMap, ch: ChildMap, top: int, fuel: nat, base: real, delta: real,
                                           bs: seq<int>, i: nat)
    requires forall j :: 0 <= j < |bs| ==> bs[j] in g
    requires i < |bs|
    ensures var r := SensLoop(AsWritten, g, ch, top, fuel, base, delta, bs);
      r.Some? ==> AsWrittenItem(g, ch, top, fuel, base, delta, bs[..i], bs[i], r.value.0[i])
    decreases |bs|
  {
    var n := |bs| - 1;
    var r := SensLoop(AsWritten, g, ch, top, fuel, base, delta, bs[..n]);
    if r.Some? {
      var p := Perturb(AsWritten, r.value.1, ch, top, fuel, base, delta, bs[n]);
      if p.Some? {
        assert SensLoop(AsWritten, g, ch, top, fuel, base, delta, bs) == Some((r.value.0 + [p.value.0], p.value.1));
        if i == n {
          AsWrittenEnds(g, ch, top, fuel, base, delta, bs[..n]);
          AsWrittenPerturbs(g, ch, top, fuel, base, delta, bs[..n], bs[n]);
        } else {
          AsWrittenPassAt(g, ch, top, fuel, base, delta, bs[..n], i);
          assert bs[..n][..i] == bs[..i] && bs[..n][i] == bs[i];
          assert (r.value.0 + [p.value.0])[i] == r.value.0[i];
        }
      }
    }
  }

  /**
   * The loop as written: pass i perturbs the i-th basic event in the tree the earlier
   * passes left, and the loop ends with every visited event stored as
   * `probability if probability else 0.01`.
   */
  lemma AsWrittenPasses(g: NodeMap, ch: ChildMap, top: int, fuel: nat, base: real, delta: real, bs: seq<int>)
    requires forall i :: 0 <= i < |bs| ==> bs[i] in g
    ensures var r := SensLoop(AsWritten, g, ch, top, fuel, base, delta, bs);
      r.Some? ==> r.value.1 == Normalized(g, bs) && AsWrittenItems(g, ch, top, fuel, base, delta, bs, r.value.0)
  {
    AsWrittenEnds(g, ch, top, fuel, base, delta, bs);
    var r := SensLoop(AsWritten, g, ch, top, fuel, base, delta, bs);
    if r.Some? {
      forall i | 0 <= i < |bs|
        ensures AsWrittenItem(g, ch, top, fuel, base, delta, bs[..i], bs[i], r.value.0[i])
      {
        AsWrittenPassAt(g, ch, top, fuel, base, delta, bs, i);
      }
    }
  }

  /**
   * The loop as written stores `probability if probability else 0.01` back into every basic
   * event it visits, and touches no other record.
   */
  lemma AsWrittenRestores(g: NodeMap, ch: ChildMap, top: int, fuel: nat, base: real, delta: real, bs: seq<int>)
    requires forall i :: 0 <= i < |bs| ==> bs[i] in g
    ensures var r := SensLoop(AsWritten, g, ch, top, fuel, base, delta, bs);
      r.Some? ==> forall id :: id in g ==>
        r.value.1[id] == if id in bs then g[id].(probability := Some(OrigProb(g[id]))) else g[id]
  {
    AsWrittenPasses(g, ch, top, fuel, base, delta, bs);
    forall id | id in g
      ensures Normalized(g, bs)[id] == if id in bs then g[id].(probability := Some(OrigProb(g[id]))) else g[id]
    {
      NormalizedAt(g, bs, id);
    }
  }

  predicate NoZeroBasics(g: NodeMap)
  {
    forall id :: id in g && g[id].nodeType == "BASIC" ==> g[id].probability != Some(0.0)
  }

  lemma {:induction false} VariantsAgreeStep(g: NodeMap, h: NodeMap, ch: ChildMap, top: int, fuel: nat, base: real,
                                             delta: real, b: int)
    requires SameShape(h, g) && NoZeroBasics(h) && b in g && g[b].nodeType == "BASIC"
    ensures var p := Perturb(AsWritten, h, ch, top, fuel, base, delta, b);
      var q := Perturb(Corrected, g, ch, top, fuel, base, delta, b);
      p.Some? == q.Some? && (p.Some? ==> p.value.0 == q.value.0 && SameShape(p.value.1, g) && NoZeroBasics(p.value.1))
  {
    var v := BasicValue(g[b]);
    var lo, hi := MinusOf(v, delta), PlusOf(v, delta);
    assert PerturbBase(AsWritten, h[b]) == v && PerturbBase(Corrected, g[b]) == v;
    SetProbCongruent(h, g, b, lo);
    SetProbCongruent(h, g, b, hi);
    TopProbCongruent(SetProb(h, b, lo), SetProb(g, b, lo), ch, top, fuel);
    TopProbCongruent(SetProb(h, b, hi), SetProb(g, b, hi), ch, top, fuel);
    RestoreKeepsShape(g, h, b);
  }

  lemma TopProbCongruent(g1: NodeMap, g2: NodeMap, ch: ChildMap, top: int, fuel: nat)
    requires SameShape(g1, g2)
    ensures TopProb(g1, ch, top, fuel) == TopProb(g2, ch, top, fuel)
  {
    CalcCongruent(g1, g2, ch, top, map[], fuel);
  }

  lemma RestoreKeepsShape(g: NodeMap, h: NodeMap, b: int)
    requires SameShape(h, g) && NoZeroBasics(h) && b in g && g[b].nodeType == "BASIC"
    ensures SameShape(Restore(AsWritten, h, b), g) && NoZeroBasics(Restore(AsWritten, h, b))
  {
    assert OrigProb(h[b]) == BasicValue(g[b]);
  }

  /** The two variants give the same items whenever no basic event is stored as exactly 0.0. */
  lemma {:induction false} VariantsAgree(g: NodeMap, ch: ChildMap, top: int, fuel: nat, base: real, delta: real,
                                         bs: seq<int>)
    requires forall i :: 0 <= i < |bs| ==> bs[i] in g && g[bs[i]].nodeType == "BASIC"
    requires NoZeroBasics(g)
    ensures var p := SensLoop(AsWritten, g, ch, top, fuel, base, delta, bs);
      var q := SensLoop(Corrected, g, ch, top, fuel, base, delta, bs);
      p.Some? == q.Some? && (p.Some? ==> p.value.0 == q.value.0)
  {
    VariantsAgreeLoop(g, ch, top, fuel, base, delta, bs);
  }

  lemma {:induction false} VariantsAgreeLoop(g: NodeMap, ch: ChildMap, top: int, fuel: nat, base: real, delta: real,
                                             bs: seq<int>)
    requires forall i :: 0 <= i < |bs| ==> bs[i] in g && g[bs[i]].nodeType == "BASIC"
    requires NoZeroBasics(g)
    ensures var p := SensLoop(AsWritten, g, ch, top, fuel, base, delta, bs);
      var q := SensLoop(Corrected, g, ch, top, fuel, base, delta, bs);
      p.Some? == q.Some? && (p.Some? ==> p.value.0 == q.value.0 && SameShape(p.value.1, g) && NoZeroBasics(p.value.1))
  {
    if bs != [] {
      var n := |bs| - 1;
      var p := SensLoop(AsWritten, g, ch, top, fuel, base, delta, bs[..n]);
      var q := SensLoop(Corrected, g, ch, top, fuel, base, delta, bs[..n]);
      assert p.Some? == q.Some? && (p.Some? ==> p.value.0 == q.value.0 && SameShape(p.value.1, g) && NoZeroBasics(p.value.1)) by {
        VariantsAgreeLoop(g, ch, top, fuel, base, delta, bs[..n]);
      }
      if p.Some? {
        assert q.value.1 == g by {
          CorrectedIsOneAtATime(g, ch, top, fuel, base, delta, bs[..n]);
        }
        var pp := Perturb(AsWritten, p.value.1, ch, top, fuel, base, delta, bs[n]);
        var qq := Perturb(Corrected, g, ch, top, fuel, base, delta, bs[n]);
        VariantsAgreeStep(g, p.value.1, ch, top, fuel, base, delta, bs[n]);
        assert SensLoop(AsWritten, g, ch, top, fuel, base, delta, bs)
            == if pp.None? then None else Some((p.value.0 + [pp.value.0], pp.value.1));
        assert SensLoop(Corrected, g, ch, top, fuel, base, delta, bs)
            == if qq.None? then None else Some((q.value.0 + [qq.value.0], qq.value.1));
      }
    }
  }

  // ---------------------------------------------------------------------------
  // What the sensitivity analysis, as written, returns.

  /**
   * The list is sorted by impact and holds `min(top_n, n)` items; each item is the pass of
   * one basic event, perturbed around `probability if probability else 0.01` in the tree
   * the earlier passes left.
   */
  lemma SensitivityFacts(g: NodeMap, ch: ChildMap, order: seq<int>, top: int, fuel: nat,
                         delta: Option<real>, stop: Option<SliceStop>)
    ensures var r := Sensitivity(AsWritten, g, ch, order, top, fuel, delta, stop);
      var bs := BasicIds(g, order);
      && (bs == [] ==> r == Some([]))
      && (r.Some? ==> SortedDesc(r.value, ImpactOf))
      && (r.Some? && bs != [] ==>
            && TopProb(g, ch, top, fuel).Some? && delta.Some? && stop.Some?
            && (stop.value.NoStop? ==> |r.value| == |bs|)
            && (stop.value.StopAt? && stop.value.k >= 0 ==> |r.value| == MinInt(stop.value.k, |bs|))
            && forall x :: x in r.value ==>
                 (exists i :: 0 <= i < |bs| &&
                    AsWrittenItem(g, ch, top, fuel, TopProb(g, ch, top, fuel).value, delta.value, bs[..i], bs[i], x)))
  {
    var r := Sensitivity(AsWritten, g, ch, order, top, fuel, delta, stop);
    var bs := BasicIds(g, order);
    if r.Some? && bs != [] {
      var base := TopProb(g, ch, top, fuel).value;
      var l := SensLoop(AsWritten, g, ch, top, fuel, base, delta.value, bs);
      var items := l.value.0;
      AsWrittenPasses(g, ch, top, fuel, base, delta.value, bs);
      SortedSliceFacts(items, ImpactOf, stop.value);
      AsWrittenMembers(g, ch, top, fuel, base, delta.value, bs, items);
    } else if r.Some? {
      SortedSliceFacts<SensItem>([], ImpactOf, NoStop);
    }
  }

  lemma AsWrittenMembers(g: NodeMap, ch: ChildMap, top: int, fuel: nat, base: real, delta: real,
                         bs: seq<int>, items: seq<SensItem>)
    requires |items| == |bs| && forall i :: 0 <= i < |bs| ==> bs[i] in g
    requires forall i :: 0 <= i < |bs| ==> AsWrittenItem(g, ch, top, fuel, base, delta, bs[..i], bs[i], items[i])
    ensures forall x :: x in items ==>
      exists i :: 0 <= i < |bs| && AsWrittenItem(g, ch, top, fuel, base, delta, bs[..i], bs[i], x)
  {
    forall x | x in items
      ensures exists i :: 0 <= i < |bs| && AsWrittenItem(g, ch, top, fuel, base, delta, bs[..i], bs[i], x)
    {
      var i :| 0 <= i < |items| && items[i] == x;
      assert AsWrittenItem(g, ch, top, fuel, base, delta, bs[..i], bs[i], items[i]);
    }
  }

  /** Normalising changes no node's kind, so a rank of the tree ranks the normalised tree, and values stay in [0, 1]. */
  lemma NormalizedRanked(g: NodeMap, ch: ChildMap, rank: map<int, nat>, bs: seq<int>)
    requires Ranked(g, ch, rank)
    ensures forall id :: IsGateNode(Normalized(g, bs), id) == IsGateNode(g, id)
    ensures forall id :: Height(Normalized(g, bs), rank, id) == Height(g, rank, id)
    ensures Ranked(Normalized(g, bs), ch, rank)
    ensures BasicsInUnit(g) ==> BasicsInUnit(Normalized(g, bs))
  {
    var h := Normalized(g, bs);
    forall id | id in g
      ensures h[id].nodeType == g[id].nodeType
      ensures BasicsInUnit(g) && g[id].nodeType == "BASIC" ==> 0.0 <= BasicValue(h[id]) <= 1.0
    {
      NormalizedAt(g, bs, id);
    }
  }

  /** On a ranked tree every pass of the loop as written succeeds, whatever the earlier passes stored. */
  lemma {:induction false} AsWrittenSucceedsRanked(g: NodeMap, ch: ChildMap, rank: map<int, nat>, top: int, fuel: nat,
                                                   base: real, delta: real, bs: seq<int>)
    requires Ranked(g, ch, rank) && BasicsInUnit(g) && Height(g, rank, top) <= fuel
    requires forall i :: 0 <= i < |bs| ==> bs[i] in g && g[bs[i]].nodeType == "BASIC"
    ensures SensLoop(AsWritten, g, ch, top, fuel, base, delta, bs).Some?
  {
    if bs != [] {
      var n := |bs| - 1;
      var b := bs[n];
      var r := SensLoop(AsWritten, g, ch, top, fuel, base, delta, bs[..n]);
      assert r.Some? && r.value.1 == Normalized(g, bs[..n]) by {
        assert forall i :: 0 <= i < n ==> bs[..n][i] == bs[i];
        AsWrittenSucceedsRanked(g, ch, rank, top, fuel, base, delta, bs[..n]);
        AsWrittenPasses(g, ch, top, fuel, base, delta, bs[..n]);
      }
      var h := r.value.1;
      assert Perturb(AsWritten, h, ch, top, fuel, base, delta, b).Some? by {
        PassSucceedsRanked(g, ch, rank, top, fuel, base, delta, bs[..n], b);
      }
    }
  }

  /** On a ranked tree one pass as written succeeds, whatever the earlier passes stored. */
  lemma PassSucceedsRanked(g: NodeMap, ch: ChildMap, rank: map<int, nat>, top: int, fuel: nat,
                           base: real, delta: real, seen: seq<int>, b: int)
    requires Ranked(g, ch, rank) && Height(g, rank, top) <= fuel
    requires b in g && g[b].nodeType == "BASIC"
    ensures b in Normalized(g, seen)
    ensures Perturb(AsWritten, Normalized(g, seen), ch, top, fuel, base, delta, b).Some?
  {
    var h := Normalized(g, seen);
    NormalizedRanked(g, ch, rank, seen);
    NormalizedKeeps(g, seen, b);
    var v := OrigProb(h[b]);
    SetProbRanked(h, ch, rank, top, fuel, b, MinusOf(v, delta));
    SetProbRanked(h, ch, rank, top, fuel, b, PlusOf(v, delta));
  }

  /** The tree is ranked, and `x` brackets the top event of the tree. */
  ghost predicate Brackets(h: NodeMap, ch: ChildMap, rank: map<int, nat>, top: int, x: SensItem)
  {
    Ranked(h, ch, rank) && x.minusProb <= NodeProb(h, ch, rank, top) <= x.plusProb
  }

  /**
   * For a delta in [0, 1], an item of the loop as written brackets the top event of the tree
   * its pass evaluated with its own event at its base value.
   */
  lemma AsWrittenItemBrackets(g: NodeMap, ch: ChildMap, rank: map<int, nat>, top: int, fuel: nat, base: real,
                              delta: real, seen: seq<int>, b: int, x: SensItem)
    requires Ranked(g, ch, rank) && BasicsInUnit(g) && Height(g, rank, top) <= fuel
    requires b in g && g[b].nodeType == "BASIC" && 0.0 <= delta <= 1.0
    requires AsWrittenItem(g, ch, top, fuel, base, delta, seen, b, x)
    ensures Brackets(Normalized(g, seen + [b]), ch, rank, top, x)
  {
    var h := Normalized(g, seen);
    NormalizedRanked(g, ch, rank, seen);
    NormalizedKeeps(g, seen, b);
    var v := OrigProb(g[b]);
    PerturbedInUnit(v, delta);
    var m, p := MinusOf(v, delta), PlusOf(v, delta);
    SetProbRanked(h, ch, rank, top, fuel, b, m);
    SetProbRanked(h, ch, rank, top, fuel, b, p);
    NodeProbMonotone(h, ch, rank, b, m, v, top);
    NodeProbMonotone(h, ch, rank, b, v, p, top);
    NormalizedSnoc(g, seen, b);
  }

  /** `AsWrittenItemBrackets` for the pass of the i-th event of `bs`. */
  lemma PassBrackets(g: NodeMap, ch: ChildMap, rank: map<int, nat>, top: int, fuel: nat, base: real,
                     delta: real, bs: seq<int>, i: nat, x: SensItem)
    requires Ranked(g, ch, rank) && BasicsInUnit(g) && Height(g, rank, top) <= fuel
    requires i < |bs| && bs[i] in g && g[bs[i]].nodeType == "BASIC" && 0.0 <= delta <= 1.0
    requires AsWrittenItem(g, ch, top, fuel, base, delta, bs[..i], bs[i], x)
    ensures Brackets(Normalized(g, bs[..i + 1]), ch, rank, top, x)
  {
    assert bs[..i] + [bs[i]] == bs[..i + 1];
    AsWrittenItemBrackets(g, ch, rank, top, fuel, base, delta, bs[..i], bs[i], x);
  }

  /**
   * On a ranked tree with a recursion limit at least the top event's height, the analysis
   * fails only on a bad `sensitivity_delta` or `top_n_sensitivity`; for a delta in [0, 1]
   * the item of the i-th basic event brackets the top event of the tree in which the first
   * i + 1 events hold `probability if probability else 0.01`.
   */
  lemma SensitivityRanked(g: NodeMap, ch: ChildMap, order: seq<int>, rank: map<int, nat>, top: int, fuel: nat,
                          delta: Option<real>, stop: Option<SliceStop>)
    requires Ranked(g, ch, rank) && BasicsInUnit(g) && Height(g, rank, top) <= fuel
    ensures var r := Sensitivity(AsWritten, g, ch, order, top, fuel, delta, stop);
      var bs := BasicIds(g, order);
      && (r.Some? <==> bs == [] || (delta.Some? && stop.Some?))
      && (r.Some? && delta.Some? && 0.0 <= delta.value <= 1.0 ==>
            forall x :: x in r.value ==>
              exists i :: 0 <= i < |bs| && x.nodeId == bs[i] && Brackets(Normalized(g, bs[..i + 1]), ch, rank, top, x))
  {
    SensitivityRankedSucceeds(g, ch, order, rank, top, fuel, delta, stop);
    SensitivityRankedBrackets(g, ch, order, rank, top, fuel, delta, stop);
  }

  lemma SensitivityRankedSucceeds(g: NodeMap, ch: ChildMap, order: seq<int>, rank: map<int, nat>, top: int, fuel: nat,
                                  delta: Option<real>, stop: Option<SliceStop>)
    requires Ranked(g, ch, rank) && BasicsInUnit(g) && Height(g, rank, top) <= fuel
    ensures var r := Sensitivity(AsWritten, g, ch, order, top, fuel, delta, stop);
      r.Some? <==> BasicIds(g, order) == [] || (delta.Some? && stop.Some?)
  {
    var bs := BasicIds(g, order);
    TopProbAgrees(g, ch, rank, top, fuel);
    if bs != [] && delta.Some? {
      var base := TopProb(g, ch, top, fuel).value;
      AsWrittenSucceedsRanked(g, ch, rank, top, fuel, base, delta.value, bs);
    }
  }

  lemma SensitivityRankedBrackets(g: NodeMap, ch: ChildMap, order: seq<int>, rank: map<int, nat>, top: int, fuel: nat,
                                  delta: Option<real>, stop: Option<SliceStop>)
    requires Ranked(g, ch, rank) && BasicsInUnit(g) && Height(g, rank, top) <= fuel
    ensures var r := Sensitivity(AsWritten, g, ch, order, top, fuel, delta, stop);
      var bs := BasicIds(g, order);
      r.Some? && delta.Some? && 0.0 <= delta.value <= 1.0 ==>
        forall x :: x in r.value ==>
          exists i :: 0 <= i < |bs| && x.nodeId == bs[i] && Brackets(Normalized(g, bs[..i + 1]), ch, rank, top, x)
  {
    var bs := BasicIds(g, order);
    var r := Sensitivity(AsWritten, g, ch, order, top, fuel, delta, stop);
    if bs != [] && delta.Some? && r.Some? && 0.0 <= delta.value <= 1.0 {
      var base := TopProb(g, ch, top, fuel).value;
      assert forall x :: x in r.value ==>
          exists i :: 0 <= i < |bs| && AsWrittenItem(g, ch, top, fuel, base, delta.value, bs[..i], bs[i], x) by {
        SensitivityFacts(g, ch, order, top, fuel, delta, stop);
      }
      forall x | x in r.value
        ensures exists i :: 0 <= i < |bs| && x.nodeId == bs[i] && Brackets(Normalized(g, bs[..i + 1]), ch, rank, top, x)
      {
        var i :| 0 <= i < |bs| && AsWrittenItem(g, ch, top, fuel, base, delta.value, bs[..i], bs[i], x);
        PassBrackets(g, ch, rank, top, fuel, base, delta.value, bs, i, x);
      }
    }
  }

  /** On a tree where no basic event is stored as exactly 0.0, the analysis as written is the corrected one. */
  lemma SensitivityWithoutZeroBasics(g: NodeMap, ch: ChildMap, order: seq<int>, top: int, fuel: nat,
                                     delta: Option<real>, stop: Option<SliceStop>)
    requires NoZeroBasics(g)
    ensures Sensitivity(AsWritten, g, ch, order, top, fuel, delta, stop)
         == Sensitivity(Corrected, g, ch, order, top, fuel, delta, stop)
  {
    var bs := BasicIds(g, order);
    var base := TopProb(g, ch, top, fuel);
    if bs != [] && base.Some? && delta.Some? {
      VariantsAgree(g, ch, top, fuel, base.value, delta.value, bs);
    }
  }

  // ---------------------------------------------------------------------------
  // What the corrected sensitivity analysis returns.

  /**
   * The list is sorted by impact, holds at most `top_n` items, and each item perturbs one
   * basic event of the tree as it was, alone.
   */
  lemma CorrectedSensitivityFacts(g: NodeMap, ch: ChildMap, order: seq<int>, top: int, fuel: nat,
                         delta: Option<real>, stop: Option<SliceStop>)
    ensures var r := Sensitivity(Corrected, g, ch, order, top, fuel, delta, stop);
      var bs := BasicIds(g, order);
      && (bs == [] ==> r == Some([]))
      && (r.Some? ==> SortedDesc(r.value, ImpactOf))
      && (r.Some? && bs != [] ==>
            && TopProb(g, ch, top, fuel).Some? && delta.Some? && stop.Some?
            && (stop.value.NoStop? ==> |r.value| == |bs|)
            && (stop.value.StopAt? && stop.value.k >= 0 ==> |r.value| == MinInt(stop.value.k, |bs|))
            && forall x :: x in r.value ==>
                 x.nodeId in bs && x.nodeId in g &&
                 OneAtATime(g, ch, top, fuel, TopProb(g, ch, top, fuel).value, delta.value, x.nodeId, x))
  {
    var r := Sensitivity(Corrected, g, ch, order, top, fuel, delta, stop);
    var bs := BasicIds(g, order);
    if r.Some? && bs != [] {
      var base := TopProb(g, ch, top, fuel).value;
      var l := SensLoop(Corrected, g, ch, top, fuel, base, delta.value, bs);
      var items := l.value.0;
      CorrectedIsOneAtATime(g, ch, top, fuel, base, delta.value, bs);
      SortedSliceFacts(items, ImpactOf, stop.value);
      OneAtATimeMembers(g, ch, top, fuel, base, delta.value, bs, items);
    } else if r.Some? {
      SortedSliceFacts<SensItem>([], ImpactOf, NoStop);
    }
  }

  lemma OneAtATimeMembers(g: NodeMap, ch: ChildMap, top: int, fuel: nat, base: real, delta: real,
                          bs: seq<int>, items: seq<SensItem>)
    requires |items| == |bs| && forall i :: 0 <= i < |bs| ==> bs[i] in g
    requires forall i :: 0 <= i < |bs| ==> OneAtATime(g, ch, top, fuel, base, delta, bs[i], items[i])
    ensures forall x :: x in items ==>
      x.nodeId in bs && x.nodeId in g && OneAtATime(g, ch, top, fuel, base, delta, x.nodeId, x)
  {
    forall x | x in items
      ensures x.nodeId in bs && x.nodeId in g && OneAtATime(g, ch, top, fuel, base, delta, x.nodeId, x)
    {
      var i :| 0 <= i < |items| && items[i] == x;
      assert OneAtATime(g, ch, top, fuel, base, delta, bs[i], items[i]);
    }
  }

  /** A perturbed evaluation of a ranked tree succeeds, and perturbing down (up) lowers (raises) the top event. */
  lemma PerturbRanked(g: NodeMap, ch: ChildMap, rank: map<int, nat>, top: int, fuel: nat, base: real, delta: real,
                      b: int)
    requires Ranked(g, ch, rank) && BasicsInUnit(g) && Height(g, rank, top) <= fuel
    requires b in g && g[b].nodeType == "BASIC"
    ensures Perturb(Corrected, g, ch, top, fuel, base, delta, b).Some?
    ensures 0.0 <= delta <= 1.0 ==>
      var item := Perturb(Corrected, g, ch, top, fuel, base, delta, b).value.0;
      item.minusProb <= NodeProb(g, ch, rank, top) <= item.plusProb
  {
    var v := BasicValue(g[b]);
    var m := MinusOf(v, delta);
    var p := PlusOf(v, delta);
    SetProbRanked(g, ch, rank, top, fuel, b, m);
    SetProbRanked(g, ch, rank, top, fuel, b, p);
    if 0.0 <= delta <= 1.0 {
      PerturbedInUnit(v, delta);
      NodeProbMonotone(g, ch, rank, b, m, v, top);
      NodeProbMonotone(g, ch, rank, b, v, p, top);
      SetProbKeepsRank(g, ch, rank, b, v);
      NodeProbCongruent(SetProb(g, b, v), g, ch, rank, top);
    }
  }

  lemma SetProbRanked(g: NodeMap, ch: ChildMap, rank: map<int, nat>, top: int, fuel: nat, b: int, p: real)
    requires Ranked(g, ch, rank) && Height(g, rank, top) <= fuel
    requires b in g && g[b].nodeType == "BASIC"
    ensures Ranked(SetProb(g, b, p), ch, rank)
    ensures TopProb(SetProb(g, b, p), ch, top, fuel) == Some(NodeProb(SetProb(g, b, p), ch, rank, top))
  {
    SetProbKeepsRank(g, ch, rank, b, p);
    assert Height(SetProb(g, b, p), rank, top) == Height(g, rank, top);
    TopProbAgrees(SetProb(g, b, p), ch, rank, top, fuel);
  }

  /** `max(0, v * (1 - delta))` and `min(1, v * (1 + delta))` bracket `v` inside [0, 1]. */
  lemma PerturbedInUnit(v: real, delta: real)
    requires 0.0 <= v <= 1.0 && 0.0 <= delta <= 1.0
    ensures 0.0 <= MinusOf(v, delta) <= v <= PlusOf(v, delta) <= 1.0
  {
    assert v * (1.0 - delta) == v - v * delta;
    assert v * (1.0 + delta) == v + v * delta;
    assert 0.0 <= v * delta;
  }

  /**
   * On a ranked tree with a recursion limit at least the top event's height, the analysis
   * fails only on a bad `sensitivity_delta` or `top_n_sensitivity`, and for a delta in
   * [0, 1] every item brackets the top event's probability.
   */
  lemma CorrectedSensitivityRanked(g: NodeMap, ch: ChildMap, order: seq<int>, rank: map<int, nat>, top: int, fuel: nat,
                          delta: Option<real>, stop: Option<SliceStop>)
    requires Ranked(g, ch, rank) && BasicsInUnit(g) && Height(g, rank, top) <= fuel
    ensures var r := Sensitivity(Corrected, g, ch, order, top, fuel, delta, stop);
      && (r.Some? <==> BasicIds(g, order) == [] || (delta.Some? && stop.Some?))
      && (r.Some? && delta.Some? && 0.0 <= delta.value <= 1.0 ==>
            forall x :: x in r.value ==> x.minusProb <= NodeProb(g, ch, rank, top) <= x.plusProb)
  {
    CorrectedSensitivityRankedSucceeds(g, ch, order, rank, top, fuel, delta, stop);
    CorrectedSensitivityRankedBrackets(g, ch, order, rank, top, fuel, delta, stop);
  }

  lemma CorrectedSensitivityRankedSucceeds(g: NodeMap, ch: ChildMap, order: seq<int>, rank: map<int, nat>, top: int, fuel: nat,
                                  delta: Option<real>, stop: Option<SliceStop>)
    requires Ranked(g, ch, rank) && BasicsInUnit(g) && Height(g, rank, top) <= fuel
    ensures var r := Sensitivity(Corrected, g, ch, order, top, fuel, delta, stop);
      r.Some? <==> BasicIds(g, order) == [] || (delta.Some? && stop.Some?)
  {
    var bs := BasicIds(g, order);
    TopProbAgrees(g, ch, rank, top, fuel);
    CorrectedSensitivityFacts(g, ch, order, top, fuel, delta, stop);
    if bs != [] && delta.Some? {
      var base := TopProb(g, ch, top, fuel).value;
      forall i | 0 <= i < |bs|
        ensures Perturb(Corrected, g, ch, top, fuel, base, delta.value, bs[i]).Some?
      {
        PerturbRanked(g, ch, rank, top, fuel, base, delta.value, bs[i]);
      }
      CorrectedSucceeds(g, ch, top, fuel, base, delta.value, bs);
    }
  }

  lemma CorrectedSensitivityRankedBrackets(g: NodeMap, ch: ChildMap, order: seq<int>, rank: map<int, nat>, top: int, fuel: nat,
                                  delta: Option<real>, stop: Option<SliceStop>)
    requires Ranked(g, ch, rank) && BasicsInUnit(g) && Height(g, rank, top) <= fuel
    ensures var r := Sensitivity(Corrected, g, ch, order, top, fuel, delta, stop);
      r.Some? && delta.Some? && 0.0 <= delta.value <= 1.0 ==>
        forall x :: x in r.value ==> x.minusProb <= NodeProb(g, ch, rank, top) <= x.plusProb
  {
    var bs := BasicIds(g, order);
    TopProbAgrees(g, ch, rank, top, fuel);
    CorrectedSensitivityFacts(g, ch, order, top, fuel, delta, stop);
    var r := Sensitivity(Corrected, g, ch, order, top, fuel, delta, stop);
    if bs != [] && delta.Some? && r.Some? && 0.0 <= delta.value <= 1.0 {
      var base := TopProb(g, ch, top, fuel).value;
      forall x | x in r.value
        ensures x.minusProb <= NodeProb(g, ch, rank, top) <= x.plusProb
      {
        PerturbRanked(g, ch, rank, top, fuel, base, delta.value, x.nodeId);
      }
    }
  }

  // The smallest tree that shows the difference: an OR top over basic events A (stored
  // as 0.0) and B (0.5).

  function ExampleTree(a: real, b: real): NodeMap
  {
    map[1 := FtaNode(1, 1, "T", "TOP", "OR", None, None, ""),
        2 := FtaNode(2, 1, "A", "BASIC", "", Some(a), None, ""),
        3 := FtaNode(3, 1, "B", "BASIC", "", Some(b), None, "")]
  }

  const ExampleChildren: ChildMap := map[1 := [2, 3], 2 := [], 3 := []]

  lemma ExampleTop(a: real, b: real, fuel: nat)
    requires fuel >= 1
    ensures TopProb(ExampleTree(a, b), ExampleChildren, 1, fuel) == Some(1.0 - (1.0 - a) * (1.0 - b))
  {
    var g := ExampleTree(a, b);
    var rank: map<int, nat> := map[1 := 0];
    assert Ranked(g, ExampleChildren, rank);
    TopProbAgrees(g, ExampleChildren, rank, 1, fuel);
    assert ChildrenOf(ExampleChildren, 1) == [2, 3];
    assert NodeProb(g, ExampleChildren, rank, 2) == a;
    assert NodeProb(g, ExampleChildren, rank, 3) == b;
    assert [2, 3][..1] == [2];
    assert [2][..0] == [];
    assert ChildProbs(g, ExampleChildren, rank, 1, [2]) == [a];
    assert ChildProbs(g, ExampleChildren, rank, 1, [2, 3]) == [a, b];
    CoProdTwo(a, b);
  }

  lemma CoProdTwo(a: real, b: real)
    ensures CoProd([a, b]) == (1.0 - a) * (1.0 - b)
  {
    assert [a, b][..1] == [a];
    assert [a][..0] == [];
    assert CoProd([a]) == 1.0 - a;
  }

  lemma ExampleFirstPass(fuel: nat)
    requires fuel >= 1
    ensures Perturb(AsWritten, ExampleTree(0.0, 0.5), ExampleChildren, 1, fuel, 0.5, 0.1, 2)
         == Some((SensItem(2, "A", 0.01, 0.5045, 0.5055, 0.0055), ExampleTree(0.01, 0.5)))
    ensures Perturb(Corrected, ExampleTree(0.0, 0.5), ExampleChildren, 1, fuel, 0.5, 0.1, 2)
         == Some((SensItem(2, "A", 0.0, 0.5, 0.5, 0.0), ExampleTree(0.0, 0.5)))
  {
    ExampleFirstPassAsWritten(fuel);
    ExampleFirstPassCorrected(fuel);
  }

  lemma ExampleFirstPassAsWritten(fuel: nat)
    requires fuel >= 1
    ensures Perturb(AsWritten, ExampleTree(0.0, 0.5), ExampleChildren, 1, fuel, 0.5, 0.1, 2)
         == Some((SensItem(2, "A", 0.01, 0.5045, 0.5055, 0.0055), ExampleTree(0.01, 0.5)))
  {
    var g := ExampleTree(0.0, 0.5);
    assert PerturbBase(AsWritten, g[2]) == 0.01;
    assert MinusOf(0.01, 0.1) == 0.009 && PlusOf(0.01, 0.1) == 0.011;
    assert SetProb(g, 2, 0.009) == ExampleTree(0.009, 0.5);
    assert SetProb(g, 2, 0.011) == ExampleTree(0.011, 0.5);
    assert Restore(AsWritten, g, 2) == ExampleTree(0.01, 0.5);
    ExampleTop(0.009, 0.5, fuel);
    ExampleTop(0.011, 0.5, fuel);
  }

  lemma ExampleFirstPassCorrected(fuel: nat)
    requires fuel >= 1
    ensures Perturb(Corrected, ExampleTree(0.0, 0.5), ExampleChildren, 1, fuel, 0.5, 0.1, 2)
         == Some((SensItem(2, "A", 0.0, 0.5, 0.5, 0.0), ExampleTree(0.0, 0.5)))
  {
    var g := ExampleTree(0.0, 0.5);
    assert g[2] == FtaNode(2, 1, "A", "BASIC", "", Some(0.0), None, "");
    SetProbSame(g, 2, 0.0);
    assert PerturbBase(Corrected, g[2]) == 0.0;
    assert MinusOf(0.0, 0.1) == 0.0 && PlusOf(0.0, 0.1) == 0.0;
    ExampleTop(0.0, 0.5, fuel);
    assert 1.0 - (1.0 - 0.0) * (1.0 - 0.5) == 0.5;
    assert TopProb(g, ExampleChildren, 1, fuel) == Some(0.5);
    assert TopProb(SetProb(g, 2, MinusOf(0.0, 0.1)), ExampleChildren, 1, fuel) == Some(0.5);
    assert TopProb(SetProb(g, 2, PlusOf(0.0, 0.1)), ExampleChildren, 1, fuel) == Some(0.5);
  }

  lemma ExampleSecondPass(fuel: nat)
    requires fuel >= 1
    ensures Perturb(AsWritten, ExampleTree(0.01, 0.5), ExampleChildren, 1, fuel, 0.5, 0.1, 3)
         == Some((SensItem(3, "B", 0.5, 0.4555, 0.5545, 0.0545), ExampleTree(0.01, 0.5)))
    ensures Perturb(Corrected, ExampleTree(0.0, 0.5), ExampleChildren, 1, fuel, 0.5, 0.1, 3)
         == Some((SensItem(3, "B", 0.5, 0.45, 0.55, 0.05), ExampleTree(0.0, 0.5)))
  {
    ExampleSecondPassAsWritten(fuel);
    ExampleSecondPassCorrected(fuel);
  }

  lemma ExampleSecondPassAsWritten(fuel: nat)
    requires fuel >= 1
    ensures Perturb(AsWritten, ExampleTree(0.01, 0.5), ExampleChildren, 1, fuel, 0.5, 0.1, 3)
         == Some((SensItem(3, "B", 0.5, 0.4555, 0.5545, 0.0545), ExampleTree(0.01, 0.5)))
  {
    var g := ExampleTree(0.01, 0.5);
    assert PerturbBase(AsWritten, g[3]) == 0.5;
    assert MinusOf(0.5, 0.1) == 0.45 && PlusOf(0.5, 0.1) == 0.55;
    assert SetProb(g, 3, 0.45) == ExampleTree(0.01, 0.45);
    assert SetProb(g, 3, 0.55) == ExampleTree(0.01, 0.55);
    assert Restore(AsWritten, g, 3) == g;
    ExampleTop(0.01, 0.45, fuel);
    ExampleTop(0.01, 0.55, fuel);
  }

  lemma ExampleSecondPassCorrected(fuel: nat)
    requires fuel >= 1
    ensures Perturb(Corrected, ExampleTree(0.0, 0.5), ExampleChildren, 1, fuel, 0.5, 0.1, 3)
         == Some((SensItem(3, "B", 0.5, 0.45, 0.55, 0.05), ExampleTree(0.0, 0.5)))
  {
    var g := ExampleTree(0.0, 0.5);
    assert PerturbBase(Corrected, g[3]) == 0.5;
    assert MinusOf(0.5, 0.1) == 0.45 && PlusOf(0.5, 0.1) == 0.55;
    assert SetProb(g, 3, 0.45) == ExampleTree(0.0, 0.45);
    assert SetProb(g, 3, 0.55) == ExampleTree(0.0, 0.55);
    ExampleTop(0.0, 0.45, fuel);
    ExampleTop(0.0, 0.55, fuel);
  }

  /** The loop over `bs + [b]` is the loop over `bs` followed by one pass for `b`. */
  /** `SensLoopStep` for the prefixes of one list of events. */
  lemma SensLoopNext(v: Variant, g: NodeMap, ch: ChildMap, top: int, fuel: nat, base: real, delta: real,
                     bs: seq<int>, k: nat)
    requires forall i :: 0 <= i < |bs| ==> bs[i] in g
    requires k < |bs|
    ensures var r := SensLoop(v, g, ch, top, fuel, base, delta, bs[..k]);
      SensLoop(v, g, ch, top, fuel, base, delta, bs[..k + 1]) ==
        if r.None? then None
        else
          var p := Perturb(v, r.value.1, ch, top, fuel, base, delta, bs[k]);
          if p.None? then None else Some((r.value.0 + [p.value.0], p.value.1))
  {
    assert bs[..k] + [bs[k]] == bs[..k + 1];
    SensLoopStep(v, g, ch, top, fuel, base, delta, bs[..k], bs[k]);
  }

  lemma SensLoopStep(v: Variant, g: NodeMap, ch: ChildMap, top: int, fuel: nat, base: real, delta: real,
                     bs: seq<int>, b: int)
    requires forall i :: 0 <= i < |bs| ==> bs[i] in g
    requires b in g
    ensures var r := SensLoop(v, g, ch, top, fuel, base, delta, bs);
      SensLoop(v, g, ch, top, fuel, base, delta, bs + [b]) ==
        if r.None? then None
        else
          var p := Perturb(v, r.value.1, ch, top, fuel, base, delta, b);
          if p.None? then None else Some((r.value.0 + [p.value.0], p.value.1))
  {
    assert (bs + [b])[..|bs|] == bs;
  }

  /**
   * As written, A (stored as 0.0) is perturbed around 0.01 and left at 0.01, so B's
   * perturbations are evaluated in a tree other than the one whose top event (0.5) they are
   * compared with: B's downward top event comes out as 0.4555 instead of 0.45, its impact as
   * 0.0545 instead of 0.05, and A, which cannot move the top event, gets an impact of 0.0055.
   */
  lemma AsWrittenDistortsLaterItems(fuel: nat)
    requires fuel >= 1
    ensures SensLoop(AsWritten, ExampleTree(0.0, 0.5), ExampleChildren, 1, fuel, 0.5, 0.1, [2, 3])
         == Some(([SensItem(2, "A", 0.01, 0.5045, 0.5055, 0.0055), SensItem(3, "B", 0.5, 0.4555, 0.5545, 0.0545)],
                  ExampleTree(0.01, 0.5)))
  {
    var g := ExampleTree(0.0, 0.5);
    var a := SensItem(2, "A", 0.01, 0.5045, 0.5055, 0.0055);
    var b := SensItem(3, "B", 0.5, 0.4555, 0.5545, 0.0545);
    assert SensLoop(AsWritten, g, ExampleChildren, 1, fuel, 0.5, 0.1, [2]) == Some(([a], ExampleTree(0.01, 0.5))) by {
      ExampleFirstPassAsWritten(fuel);
      assert SensLoop(AsWritten, g, ExampleChildren, 1, fuel, 0.5, 0.1, []) == Some(([], g));
      SensLoopStep(AsWritten, g, ExampleChildren, 1, fuel, 0.5, 0.1, [], 2);
      assert [] + [2] == [2] && [] + [a] == [a];
    }
    ExampleSecondPassAsWritten(fuel);
    SensLoopStep(AsWritten, g, ExampleChildren, 1, fuel, 0.5, 0.1, [2], 3);
    assert [2] + [3] == [2, 3] && [a] + [b] == [a, b];
  }

  /** The corrected loop on the same tree: A has no impact, and B's items are B's alone. */
  lemma CorrectedExample(fuel: nat)
    requires fuel >= 1
    ensures SensLoop(Corrected, ExampleTree(0.0, 0.5), ExampleChildren, 1, fuel, 0.5, 0.1, [2, 3])
         == Some(([SensItem(2, "A", 0.0, 0.5, 0.5, 0.0), SensItem(3, "B", 0.5, 0.45, 0.55, 0.05)], ExampleTree(0.0, 0.5)))
  {
    ExampleFirstPassCorrected(fuel);
    ExampleSecondPassCorrected(fuel);
    var g := ExampleTree(0.0, 0.5);
    var a := SensItem(2, "A", 0.0, 0.5, 0.5, 0.0);
    var b := SensItem(3, "B", 0.5, 0.45, 0.55, 0.05);
    assert SensLoop(Corrected, g, ExampleChildren, 1, fuel, 0.5, 0.1, []) == Some(([], g));
    SensLoopStep(Corrected, g, ExampleChildren, 1, fuel, 0.5, 0.1, [], 2);
    assert [] + [2] == [2] && [] + [a] == [a];
    assert SensLoop(Corrected, g, ExampleChildren, 1, fuel, 0.5, 0.1, [2]) == Some(([a], ExampleTree(0.0, 0.5)));
    SensLoopStep(Corrected, g, ExampleChildren, 1, fuel, 0.5, 0.1, [2], 3);
    assert [2] + [3] == [2, 3] && [a] + [b] == [a, b];
  }

  // ---------------------------------------------------------------------------
  // Levels, parameters and the run.

  /** `_probability_to_likelihood`: one level per decade from 1e-5 up to 1e-2. */
  function Likelihood(p: real): (l: int)
    ensures 1 <= l <= 5
    ensures l == 1 <==> p < 0.00001
    ensures l == 2 <==> 0.00001 <= p < 0.0001
    ensures l == 3 <==> 0.0001 <= p < 0.001
    ensures l == 4 <==> 0.001 <= p < 0.01
    ensures l == 5 <==> 0.01 <= p
  {
    if p < 0.00001 then 1 else if p < 0.0001 then 2 else if p < 0.001 then 3 else if p < 0.01 then 4 else 5
  }

  /** A likelier top event never gets a lower likelihood level. */
  lemma LikelihoodMonotone(p: real, q: real)
    requires p <= q
    ensures Likelihood(p) <= Likelihood(q)
  {
  }

  /** `_get_risk_level` on R = L x S, which is a float when S is. */
  function RiskLevelName(r: real): (name: string)
    ensures name == "Low" <==> r <= 4.0
    ensures name == "Medium" <==> 4.0 < r <= 9.0
    ensures name == "High" <==> 9.0 < r <= 16.0
    ensures name == "Extreme" <==> 16.0 < r
  {
    if r <= 4.0 then "Low" else if r <= 9.0 then "Medium" else if r <= 16.0 then "High" else "Extreme"
  }

  /** On whole scores the level is the shared risk-matrix level of that score. */
  lemma RiskLevelNameAgrees(k: int)
    ensures RiskLevelName(k as real) == RiskTypes.LevelName(RiskTypes.FromScore(k))
  {
  }

  /**
   * `top_node.severity if top_node.severity else params.get("default_severity", 3)`, as a
   * factor of R: None where the product or its comparison raises (a string or None).
   */
  function SeverityLevel(top: FtaNode, params: map<string, ParamValue>): Option<real>
  {
    if top.severity.Some? && top.severity.value != 0 then Some(top.severity.value as real)
    else if "default_severity" !in params then Some(3.0)
    else NumberParam(params["default_severity"])
  }

  /** `params.get("sensitivity_delta", 0.1)` as the loop's arithmetic sees it. */
  function DeltaParam(params: map<string, ParamValue>): Option<real>
  {
    if "sensitivity_delta" !in params then Some(0.1) else NumberParam(params["sensitivity_delta"])
  }

  datatype NodeResult = NodeResult(
    nodeId: int,
    name: string,
    nodeType: string,
    gateType: string,
    probability: real,
    contribution: real)

  /** One entry of `node_results`: the evaluated value (0 if never reached) and its share of the top. */
  function NodeResultOf(n: FtaNode, probs: Memo, pTop: real): NodeResult
  {
    var prob := MemoGet(probs, n.id);
    NodeResult(n.id, n.name, n.nodeType, n.gateType, prob, if pTop > 0.0 then prob / pTop else 0.0)
  }

  function NodeResults(ns: seq<FtaNode>, probs: Memo, pTop: real): (rs: seq<NodeResult>)
    ensures |rs| == |ns|
  {
    seq(|ns|, i requires 0 <= i < |ns| => NodeResultOf(ns[i], probs, pTop))
  }

  /** The `node_results` loop of `_run_fta`. */
  method BuildNodeResults(ns: seq<FtaNode>, probs: Memo, pTop: real) returns (rs: seq<NodeResult>)
    ensures rs == NodeResults(ns, probs, pTop)
  {
    rs := [];
    var k := 0;
    while k < |ns|
      invariant 0 <= k <= |ns|
      invariant rs == NodeResults(ns[..k], probs, pTop)
    {
      var n := ns[k];
      var prob := MemoGet(probs, n.id);
      var contribution := if pTop > 0.0 then prob / pTop else 0.0;
      rs := rs + [NodeResult(n.id, n.name, n.nodeType, n.gateType, prob, contribution)];
      k := k + 1;
    }
    assert ns[..k] == ns;
  }

  /**
   * Each node keeps its identity; its contribution is its share of the top event when
   * the top event is likely at all, and 0 otherwise; the top node's share is 1.
   */
  lemma NodeResultsFacts(ns: seq<FtaNode>, probs: Memo, pTop: real, top: int)
    requires top in probs && probs[top] == pTop
    ensures forall i :: 0 <= i < |ns| ==>
      var r := NodeResults(ns, probs, pTop)[i];
      && r.nodeId == ns[i].id && r.name == ns[i].name && r.nodeType == ns[i].nodeType && r.gateType == ns[i].gateType
      && r.probability == MemoGet(probs, ns[i].id)
      && (pTop > 0.0 ==> r.contribution * pTop == r.probability)
      && (pTop <= 0.0 ==> r.contribution == 0.0)
      && (pTop > 0.0 && ns[i].id == top ==> r.contribution == 1.0)
  {
    forall i | 0 <= i < |ns|
      ensures var r := NodeResults(ns, probs, pTop)[i];
        && (pTop > 0.0 ==> r.contribution * pTop == r.probability)
        && (pTop > 0.0 && ns[i].id == top ==> r.contribution == 1.0)
    {
      var prob := MemoGet(probs, ns[i].id);
      if pTop > 0.0 {
        assert prob / pTop * pTop == prob;
        if ns[i].id == top {
          assert prob == pTop;
          assert prob / pTop == 1.0;
        }
      }
    }
  }

  datatype FtaResult = FtaResult(
    topEventName: string,
    topEventProbability: real,
    likelihoodLevel: int,
    severityLevel: real,
    riskScore: real,
    riskLevel: string,
    nodeResults: seq<NodeResult>,
    sensitivity: seq<SensItem>)

  /** The result `_run_fta` returns when there is nothing to evaluate. */
  function Placeholder(name: string): FtaResult
  {
    FtaResult(name, 0.0, 1, 1.0, 1.0, "Low", [], [])
  }

  /** `FTAModel.run` over the mission's nodes (in id order) and the edge table. */
  function Assess(missionId: Option<int>, params: map<string, ParamValue>, ns: seq<FtaNode>, edges: seq<FtaEdge>,
                  fuel: nat): RunResult<FtaResult>
  {
    if missionId.None? || missionId.value == 0 then Failure(MissingMissionId)
    else if ns == [] then Success(Placeholder("无数据"))
    else if FindTop(ns).None? then Success(Placeholder("未找到顶事件"))
    else AssessTree(params, ns, NodeDict(ns), ChildrenMap(ns, edges), KeyOrder(ns), FindTop(ns).value, fuel)
  }

  /** `_run_fta` once the top node is known. */
  function AssessTree(params: map<string, ParamValue>, ns: seq<FtaNode>, g: NodeMap, ch: ChildMap, order: seq<int>,
                      t: FtaNode, fuel: nat): RunResult<FtaResult>
  {
    var probs := Probabilities(g, ch, t.id, fuel);
    var s := SeverityLevel(t, params);
    if probs.None? || s.None? then Failure(EvaluationFailed)
    else
      var sens := Sensitivity(AsWritten, g, ch, order, t.id, fuel, DeltaParam(params),
                              SliceStopParam(params, "top_n_sensitivity", 10));
      if sens.None? then Failure(EvaluationFailed)
      else Success(Conclude(ns, t, probs.value, s.value, sens.value))
  }

  /** The result once the tree is evaluated: levels from the top event, then the node results. */
  function Conclude(ns: seq<FtaNode>, t: FtaNode, probs: Memo, s: real, sens: seq<SensItem>): FtaResult
  {
    var pTop := MemoGet(probs, t.id);
    var l := Likelihood(pTop);
    var r := l as real * s;
    FtaResult(t.name, pTop, l, s, r, RiskLevelName(r), NodeResults(ns, probs, pTop), sens)
  }

  /** Only a missing (or zero) `mission_id` is reported as such; every other outcome gets past that check. */
  lemma AssessMissionCheck(missionId: Option<int>, params: map<string, ParamValue>, ns: seq<FtaNode>,
                           edges: seq<FtaEdge>, fuel: nat)
    ensures Assess(missionId, params, ns, edges, fuel) == Failure(MissingMissionId)
        <==> missionId.None? || missionId.value == 0
    ensures missionId.Some? && missionId.value != 0 && ns == [] ==>
      Assess(missionId, params, ns, edges, fuel) == Success(Placeholder("无数据"))
  {
  }

  /**
   * On an acyclic tree (a rank) whose basic events are probabilities and a recursion limit
   * at least the top event's height, the run fails only on a bad severity, delta or
   * `top_n`, and reports the AND/OR probability of the top event, inside [0, 1], with
   * the risk score `L * S`.
   */
  lemma AssessRanked(missionId: Option<int>, params: map<string, ParamValue>, ns: seq<FtaNode>, edges: seq<FtaEdge>,
                     fuel: nat, rank: map<int, nat>)
    requires missionId.Some? && missionId.value != 0 && FindTop(ns).Some?
    requires var g := NodeDict(ns);
      Ranked(g, ChildrenMap(ns, edges), rank) && BasicsInUnit(g) && Height(g, rank, FindTop(ns).value.id) <= fuel
    ensures var g := NodeDict(ns);
      var t := FindTop(ns).value;
      var r := Assess(missionId, params, ns, edges, fuel);
      && (r.Success? <==> TreeSucceeds(params, g, KeyOrder(ns), t))
      && (r.Success? ==> ReportsTop(r.data, params, g, ChildrenMap(ns, edges), rank, t))
  {
    var t := FindTop(ns).value;
    assert ns != [];
    AssessTreeRanked(params, ns, NodeDict(ns), ChildrenMap(ns, edges), KeyOrder(ns), t, fuel, rank);
  }

  /** The conditions under which a well-formed tree is evaluated without an exception. */
  predicate TreeSucceeds(params: map<string, ParamValue>, g: NodeMap, order: seq<int>, t: FtaNode)
  {
    && SeverityLevel(t, params).Some?
    && (BasicIds(g, order) == []
        || (DeltaParam(params).Some? && SliceStopParam(params, "top_n_sensitivity", 10).Some?))
  }

  /** The head of the result: the top event, its AND/OR probability in [0, 1], and `L`, `S`, `L * S`. */
  ghost predicate ReportsTop(d: FtaResult, params: map<string, ParamValue>, g: NodeMap, ch: ChildMap,
                             rank: map<int, nat>, t: FtaNode)
    requires Ranked(g, ch, rank)
  {
    && d.topEventName == t.name
    && d.topEventProbability == NodeProb(g, ch, rank, t.id)
    && 0.0 <= d.topEventProbability <= 1.0
    && d.likelihoodLevel == Likelihood(d.topEventProbability)
    && SeverityLevel(t, params).Some? && d.severityLevel == SeverityLevel(t, params).value
    && d.riskScore == d.likelihoodLevel as real * d.severityLevel
    && d.riskLevel == RiskLevelName(d.riskScore)
  }

  lemma AssessTreeRanked(params: map<string, ParamValue>, ns: seq<FtaNode>, g: NodeMap, ch: ChildMap, order: seq<int>,
                         t: FtaNode, fuel: nat, rank: map<int, nat>)
    requires Ranked(g, ch, rank) && BasicsInUnit(g) && Height(g, rank, t.id) <= fuel
    ensures var r := AssessTree(params, ns, g, ch, order, t, fuel);
      && (r.Success? <==> TreeSucceeds(params, g, order, t))
      && (r.Success? ==> ReportsTop(r.data, params, g, ch, rank, t))
  {
    TopProbAgrees(g, ch, rank, t.id, fuel);
    var stop := SliceStopParam(params, "top_n_sensitivity", 10);
    SensitivityRanked(g, ch, order, rank, t.id, fuel, DeltaParam(params), stop);
    if AssessTree(params, ns, g, ch, order, t, fuel).Success? {
      AssessTreeReports(params, ns, g, ch, order, t, fuel, rank);
    }
  }

  lemma AssessTreeReports(params: map<string, ParamValue>, ns: seq<FtaNode>, g: NodeMap, ch: ChildMap, order: seq<int>,
                          t: FtaNode, fuel: nat, rank: map<int, nat>)
    requires Ranked(g, ch, rank) && BasicsInUnit(g) && Height(g, rank, t.id) <= fuel
    requires AssessTree(params, ns, g, ch, order, t, fuel).Success?
    ensures ReportsTop(AssessTree(params, ns, g, ch, order, t, fuel).data, params, g, ch, rank, t)
  {
    TopProbAgrees(g, ch, rank, t.id, fuel);
    NodeProbInUnit(g, ch, rank, t.id);
    var stop := SliceStopParam(params, "top_n_sensitivity", 10);
    var probs := Probabilities(g, ch, t.id, fuel).value;
    var sens := Sensitivity(AsWritten, g, ch, order, t.id, fuel, DeltaParam(params), stop).value;
    var s := SeverityLevel(t, params).value;
    var d := AssessTree(params, ns, g, ch, order, t, fuel).data;
    assert d == Conclude(ns, t, probs, s, sens);
    assert MemoGet(probs, t.id) == NodeProb(g, ch, rank, t.id);
    ConcludeHead(ns, t, probs, s, sens);
  }

  lemma ConcludeHead(ns: seq<FtaNode>, t: FtaNode, probs: Memo, s: real, sens: seq<SensItem>)
    ensures var d := Conclude(ns, t, probs, s, sens);
      && d.topEventName == t.name
      && d.topEventProbability == MemoGet(probs, t.id)
      && d.likelihoodLevel == Likelihood(d.topEventProbability)
      && d.severityLevel == s
      && d.riskScore == d.likelihoodLevel as real * s
      && d.riskLevel == RiskLevelName(d.riskScore)
      && d.sensitivity == sens
  {
  }

  /** `FTAModel.run` with `_run_fta`. */
  method RunFta(missionId: Option<int>, params: map<string, ParamValue>, ns: seq<FtaNode>, edges: seq<FtaEdge>,
                fuel: nat) returns (r: RunResult<FtaResult>)
    ensures r == Assess(missionId, params, ns, edges, fuel)
  {
    if missionId.None? || missionId.value == 0 {
      return Failure(MissingMissionId);
    }
    if ns == [] {
      return Success(Placeholder("无数据"));
    }
    var tree := new FaultTree(ns, edges);
    var top := FindTop(ns);
    if top.None? {
      return Success(Placeholder("未找到顶事件"));
    }
    r := RunTree(tree, params, ns, top.value, fuel);
  }

  /** The evaluation, the levels, the node results and the sensitivity on the built tree. */
  method RunTree(tree: FaultTree, params: map<string, ParamValue>, ns: seq<FtaNode>, t: FtaNode, fuel: nat)
    returns (r: RunResult<FtaResult>)
    modifies tree
    ensures r == AssessTree(params, ns, old(tree.nodes), tree.children, tree.order, t, fuel)
  {
    var probs := tree.CalculateProbabilities(t.id, fuel);
    if probs.None? {
      return Failure(EvaluationFailed);
    }
    var s := SeverityLevel(t, params);
    if s.None? {
      return Failure(EvaluationFailed);
    }
    var sens := tree.SensitivityAnalysis(t.id, fuel, DeltaParam(params), SliceStopParam(params, "top_n_sensitivity", 10));
    if sens.None? {
      return Failure(EvaluationFailed);
    }
    var result := BuildResult(ns, t, probs.value, s.value, sens.value);
    r := Success(result);
  }

  /** The levels of the top event and the `node_results` loop. */
  method BuildResult(ns: seq<FtaNode>, t: FtaNode, probs: Memo, s: real, sens: seq<SensItem>) returns (r: FtaResult)
    ensures r == Conclude(ns, t, probs, s, sens)
  {
    var pTop := MemoGet(probs, t.id);
    var l := Likelihood(pTop);
    var score := l as real * s;
    var level := RiskLevelName(score);
    var nodeResults := BuildNodeResults(ns, probs, pTop);
    r := FtaResult(t.name, pTop, l, s, score, level, nodeResults, sens);
  }

  // ---------------------------------------------------------------------------
  // `generate_recommendations`: the advice lines, without their text formatting.

  datatype Advice =
    | RiskWarning(eventName: string, level: string, probability: real)
    | ReduceKeyBasicEvents
    | AddRedundancy
    | StrengthenMaintenance
    | SensitivityHeader
    | KeyEvent(rank: nat, nodeName: string, impact: real)
    | ControlKeyEvents

  function IsSevere(level: string): bool { level == "High" || level == "Extreme" }

  /** The four lines for a High or Extreme top event. */
  function RiskAdvice(d: FtaResult): seq<Advice>
  {
    if IsSevere(d.riskLevel) then
      [RiskWarning(d.topEventName, d.riskLevel, d.topEventProbability), ReduceKeyBasicEvents, AddRedundancy,
       StrengthenMaintenance]
    else []
  }

  /** `enumerate(items, 1)`: one numbered line per item. */
  function KeyEvents(items: seq<SensItem>): seq<Advice>
  {
    seq(|items|, i requires 0 <= i < |items| => KeyEvent(i + 1, items[i].nodeName, items[i].impactScore))
  }

  function Recommendations(d: FtaResult): seq<Advice>
  {
    RiskAdvice(d)
      + if d.sensitivity == [] then []
        else [SensitivityHeader] + KeyEvents(PyPrefix(d.sensitivity, 5)) + [ControlKeyEvents]
  }

  /** `FTAModel.generate_recommendations`, with its loop over the five first sensitivity items. */
  method GenerateRecommendations(d: FtaResult) returns (out: seq<Advice>)
    ensures out == Recommendations(d)
  {
    out := RiskAdvice(d);
    if d.sensitivity != [] {
      out := out + [SensitivityHeader];
      var head := PyPrefix(d.sensitivity, 5);
      var lines: seq<Advice> := [];
      var i := 0;
      while i < |head|
        invariant 0 <= i <= |head|
        invariant lines == KeyEvents(head[..i])
      {
        lines := lines + [KeyEvent(i + 1, head[i].nodeName, head[i].impactScore)];
        i := i + 1;
      }
      assert head[..i] == head;
      out := out + lines + [ControlKeyEvents];
    }
  }

  /**
   * The warning comes first exactly when the level is High or Extreme; then, when there is
   * a sensitivity list, a header, its first five items numbered from 1, and a closing line.
   */
  lemma RecommendationsFacts(d: FtaResult)
    ensures var out := Recommendations(d);
      var n := MinInt(5, |d.sensitivity|);
      && |out| == (if IsSevere(d.riskLevel) then 4 else 0) + (if d.sensitivity == [] then 0 else n + 2)
      && (out != [] && out[0].RiskWarning? <==> IsSevere(d.riskLevel))
      && (forall j :: 0 <= j < n ==> KeyEvent(j + 1, d.sensitivity[j].nodeName, d.sensitivity[j].impactScore) in out)
      && (forall a :: a in out && a.KeyEvent? ==>
            1 <= a.rank <= n && a.nodeName == d.sensitivity[a.rank - 1].nodeName
            && a.impact == d.sensitivity[a.rank - 1].impactScore)
  {
    var out := Recommendations(d);
    var n := MinInt(5, |d.sensitivity|);
    var ks := KeyEvents(PyPrefix(d.sensitivity, 5));
    if d.sensitivity != [] {
      var tail := [SensitivityHeader] + ks + [ControlKeyEvents];
      assert out == RiskAdvice(d) + tail;
      forall j | 0 <= j < n
        ensures KeyEvent(j + 1, d.sensitivity[j].nodeName, d.sensitivity[j].impactScore) in out
      {
        assert out[|RiskAdvice(d)| + 1 + j] == ks[j];
      }
      var head := PyPrefix(d.sensitivity, 5);
      KeyEventsFacts(head);
      forall a | a in out && a.KeyEvent?
        ensures 1 <= a.rank <= n && a.nodeName == d.sensitivity[a.rank - 1].nodeName
        ensures a.impact == d.sensitivity[a.rank - 1].impactScore
      {
        assert a in ks;
        assert head[a.rank - 1] == d.sensitivity[a.rank - 1];
      }
    }
  }

  lemma KeyEventsFacts(items: seq<SensItem>)
    ensures forall a :: a in KeyEvents(items) ==>
      a.KeyEvent? && 1 <= a.rank <= |items| && a.nodeName == items[a.rank - 1].nodeName
      && a.impact == items[a.rank - 1].impactScore
  {
    forall a | a in KeyEvents(items)
      ensures a.KeyEvent? && 1 <= a.rank <= |items| && a.nodeName == items[a.rank - 1].nodeName
      ensures a.impact == items[a.rank - 1].impactScore
    {
      var i :| 0 <= i < |items| && KeyEvents(items)[i] == a;
    }
  }
}
