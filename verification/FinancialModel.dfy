/**
  dofmcalc_r and dofmcalc_normal: the recursion over levels and layers that carries losses up
  the hierarchy and applies the policy terms.
*/
module FinancialModel {
  import opened FinancialStructs
  import opened RealSums
  import opened CalcRules
  import opened Hierarchy

  // ---------- columns of a vector of records ----------

  /** The fields that are summed when aggregates are combined. */
  datatype Field = Loss | Retained | Deductible | Over | Under

  function Get(x: LossRec, f: Field): real {
    match f
    case Loss => x.loss
    case Retained => x.retained_loss
    case Deductible => x.effective_deductible
    case Over => x.over_limit
    case Under => x.under_limit
  }

  function Column(v: seq<LossRec>, f: Field): (c: seq<real>)
    ensures |c| == |v| && forall i :: 0 <= i < |v| ==> c[i] == Get(v[i], f)
  {
    if v == [] then [] else Column(v[..|v| - 1], f) + [Get(v[|v| - 1], f)]
  }

  /** The total of a field over the children of aggregate j. */
  function ChildSum(below: seq<LossRec>, parent: seq<nat>, j: nat, f: Field): real
    requires |below| == |parent|
  {
    SumWhere(Column(below, f), parent, j)
  }

  lemma ChildSumSnoc(below: seq<LossRec>, parent: seq<nat>, p: LossRec, q: nat, j: nat, f: Field)
    requires |below| == |parent|
    ensures ChildSum(below + [p], parent + [q], j, f)
            == ChildSum(below, parent, j, f) + if q == j then Get(p, f) else 0.0
  {
    assert (below + [p])[..|below|] == below && (parent + [q])[..|parent|] == parent;
    var c := Column(below + [p], f);
    assert c[..|below|] == Column(below, f);
  }

  lemma {:induction false} ChildSumNone(below: seq<LossRec>, parent: seq<nat>, j: nat, f: Field)
    requires |below| == |parent| && j !in parent
    ensures ChildSum(below, parent, j, f) == 0.0
  {
    ZeroSumWhere(Column(below, f), parent, j);
  }

  // ---------- one record ----------

  /** What aggregate j is handed: the sums over its children, and its own identity. */
  function Gathered(below: seq<LossRec>, parent: seq<nat>, node: PolicyNode, tiv: real, j: nat): LossRec
    requires |below| == |parent|
  {
    FRESH.(loss := ChildSum(below, parent, j, Loss),
           retained_loss := ChildSum(below, parent, j, Retained),
           effective_deductible := ChildSum(below, parent, j, Deductible),
           over_limit := ChildSum(below, parent, j, Over),
           under_limit := ChildSum(below, parent, j, Under),
           accumulated_tiv := tiv,
           agg_id := node.agg_id,
           policytc_id := node.policytc_id,
           item_idx := Some(node.item_idx))
  }

  /** A record not yet handed anything is fresh. */
  function PartlyGathered(below: seq<LossRec>, parent: seq<nat>, node: PolicyNode, tiv: real, j: nat): LossRec
    requires |below| == |parent|
  {
    if j in parent then Gathered(below, parent, node, tiv, j) else FRESH
  }

  /** What one step of the loop adds. */
  function Plus(x: LossRec, p: LossRec): LossRec {
    x.(loss := x.loss + p.loss,
       retained_loss := x.retained_loss + p.retained_loss,
       effective_deductible := x.effective_deductible + p.effective_deductible,
       over_limit := x.over_limit + p.over_limit,
       under_limit := x.under_limit + p.under_limit)
  }

  function Identified(x: LossRec, node: PolicyNode, tiv: real): LossRec {
    x.(agg_id := node.agg_id, policytc_id := node.policytc_id, item_idx := Some(node.item_idx), accumulated_tiv := tiv)
  }

  lemma GatheredSnoc(below: seq<LossRec>, parent: seq<nat>, p: LossRec, q: nat, node: PolicyNode, tiv: real, j: nat)
    requires |below| == |parent|
    ensures PartlyGathered(below + [p], parent + [q], node, tiv, j)
            == if q == j then Plus(Identified(PartlyGathered(below, parent, node, tiv, j), node, tiv), p)
               else PartlyGathered(below, parent, node, tiv, j)
  {
    forall f: Field
      ensures ChildSum(below + [p], parent + [q], j, f)
              == ChildSum(below, parent, j, f) + if q == j then Get(p, f) else 0.0
    {
      ChildSumSnoc(below, parent, p, q, j, f);
    }
    if j !in parent {
      forall f: Field ensures ChildSum(below, parent, j, f) == 0.0 { ChildSumNone(below, parent, j, f); }
    }
  }

  // ---------- set-up ----------

  /** What dofm and the input files fix before any loss is calculated. */
  datatype Setup = Setup(
    inputs: seq<LevelInput>,
    levels: seq<Level>,
    layers: seq<nat>,          // level_to_max_layer_
    maxLayer: nat,             // max_layer_
    profiles: seq<Profile>,    // by policytc_id
    tivs: seq<seq<real>>,      // accumulated_tivs_
    gulStream: bool)
  {
    function Top(): int { |levels| - 1 }
    function Tiv(level: nat, agg: int): real {
      if gulStream && level < |tivs| && 0 <= agg < |tivs[level]| then tivs[level][agg] else 0.0
    }
    /** The last layer calculated at a level. */
    function LastLayer(level: nat): nat {
      if level == |levels| - 1 then maxLayer else if level < |layers| then layers[level] else 0
    }
    /** The layer of the level below that feeds a layer. */
    function FeedLayer(level: nat, layer: nat): nat {
      if 1 <= level <= |layers| && layer <= layers[level - 1] then layer else 1
    }
    function Nodes(level: nat, layer: nat): seq<PolicyNode> {
      if level < |levels| && layer < |levels[level].nodes| then levels[level].nodes[layer] else []
    }
    /** The number of aggregates at a level. */
    function Width(level: nat): nat { |Nodes(level, 1)| }
    function Size(level: nat): nat { if level < |levels| then |levels[level].lookup| else 0 }
  }

  /** Level and layer hold one node for each aggregate, with a policy, or none at all above the level's own layers. */
  ghost predicate LayerFits(s: Setup, level: nat, layer: nat)
    requires level < |s.layers|
  {
    var nodes := s.Nodes(level, layer);
    && |nodes| == (if layer <= s.layers[level] then s.Width(level) else 0)
    && (forall j :: 0 <= j < |nodes| ==>
          nodes[j].agg_id == s.Nodes(level, 1)[j].agg_id >= 1
          && nodes[j].policytc_id != 0 && nodes[j].policytc_id < |s.profiles|)
  }

  /** Everything handed up finds its aggregate, and every aggregate is handed something. */
  ghost predicate LinkFits(s: Setup, level: nat, parent: seq<nat>)
    requires 1 <= level < |s.levels| == |s.inputs| && level < |s.layers|
  {
    var below, lookup := s.Nodes(level - 1, 1), s.levels[level].lookup;
    && |parent| == |below|
    && (forall j :: 0 <= j < s.Width(level) ==> j in parent)
    && (forall i :: 0 <= i < |below| ==>
          var agg := s.inputs[level].Target(below[i].agg_id);
          && parent[i] < s.Width(level)
          && 1 <= agg <= |lookup| && lookup[agg - 1] == parent[i]
          && agg == s.Nodes(level, 1)[parent[i]].agg_id
          && s.inputs[level].Layers(agg) == s.layers[level])
  }

  ghost predicate Fits(s: Setup, parents: seq<seq<nat>>) {
    && 2 <= |s.levels| == |s.inputs| == |s.layers| == |parents|
    && s.maxLayer >= 1
    && s.layers[0] == 1
    && (forall l :: 0 <= l < |s.layers| ==> 1 <= s.layers[l] <= s.maxLayer && s.Width(l) <= s.Size(l))
    && (forall l: nat, k: nat :: l < |s.layers| && 1 <= k <= s.maxLayer ==> LayerFits(s, l, k))
    && (forall l: nat :: 1 <= l < |s.levels| ==> LinkFits(s, l, parents[l]))
  }

  // ---------- vectors ----------

  /** A record that belongs to no aggregate of the event. */
  predicate Idle(x: LossRec) { x.(previous_layer_retained_loss := 0.0) == FRESH }

  /** A vector whose first records are those of the nodes, and the rest idle. */
  ghost predicate Live(v: seq<LossRec>, nodes: seq<PolicyNode>) {
    && |nodes| <= |v|
    && (forall j :: 0 <= j < |nodes| ==> v[j].agg_id == nodes[j].agg_id && v[j].policytc_id == nodes[j].policytc_id)
    && (forall j :: |nodes| <= j < |v| ==> v[j].agg_id == 0 && Idle(v[j]))
  }

  /** The vector can be reset: it is new, or was left by another sample. */
  ghost predicate Resettable(v: seq<LossRec>, nodes: seq<PolicyNode>, size: nat) {
    v == [] || (|v| == size && |nodes| <= size && (forall j :: 0 <= j < |nodes| ==> v[j].policytc_id != 0)
                && (forall j :: |nodes| <= j < size ==> Idle(v[j])))
  }

  /** The reset loop stops at the first record without a policy. */
  method Reset(v0: seq<LossRec>, ghost nodes: seq<PolicyNode>, size: nat) returns (v: seq<LossRec>)
    requires Resettable(v0, nodes, size) && |nodes| <= size
    ensures |v| == size && forall j :: 0 <= j < size ==> Idle(v[j]) && (j < |nodes| ==> v[j] == FRESH)
  {
    v := v0;
    var i := 0;
    while i < |v|
      invariant 0 <= i <= |v| == |v0|
      invariant forall j :: 0 <= j < i ==> v[j] == FRESH
      invariant forall j :: i <= j < |v| ==> v[j] == v0[j]
    {
      if v[i].policytc_id == 0 { break; }
      v := v[i := FRESH];
      i := i + 1;
    }
    if |v| != size {
      v := Resized(v, size);
    }
  }

  function Resized(v: seq<LossRec>, n: nat): (r: seq<LossRec>)
    ensures |r| == n && forall i :: 0 <= i < n ==> r[i] == if i < |v| then v[i] else FRESH
    decreases if |v| < n then n - |v| else 0
  {
    if |v| < n then Resized(v + [FRESH], n) else v[..n]
  }

  /** The vector after the first records of the level below are added. */
  ghost predicate Partial(s: Setup, level: nat, layer: nat, below: seq<LossRec>, parent: seq<nat>, v: seq<LossRec>) {
    && |below| == |parent| && |v| == s.Size(level) && |s.Nodes(level, layer)| <= |v|
    && (forall j :: 0 <= j < |s.Nodes(level, layer)| ==>
          v[j] == PartlyGathered(below, parent, s.Nodes(level, layer)[j],
                                 s.Tiv(level, s.Nodes(level, layer)[j].agg_id), j))
    && (forall j :: |s.Nodes(level, layer)| <= j < |v| ==> Idle(v[j]))
  }

  lemma PartialSnoc(s: Setup, level: nat, layer: nat, below: seq<LossRec>, parent: seq<nat>, v0: seq<LossRec>,
                    p: LossRec, q: nat, v: seq<LossRec>)
    requires Partial(s, level, layer, below, parent, v0) && q < |s.Nodes(level, layer)|
    requires var node := s.Nodes(level, layer)[q];
             v == v0[q := Plus(Identified(v0[q], node, s.Tiv(level, node.agg_id)), p)]
    ensures Partial(s, level, layer, below + [p], parent + [q], v)
  {
    forall j | 0 <= j < |s.Nodes(level, layer)|
      ensures v[j] == PartlyGathered(below + [p], parent + [q], s.Nodes(level, layer)[j],
                                     s.Tiv(level, s.Nodes(level, layer)[j].agg_id), j)
    {
      GatheredSnoc(below, parent, p, q, s.Nodes(level, layer)[j], s.Tiv(level, s.Nodes(level, layer)[j].agg_id), j);
    }
  }

  /** One record of the level below joins its aggregate. */
  method AddRecord(s: Setup, level: nat, layer: nat, v0: seq<LossRec>, p: LossRec, vec_idx: nat)
      returns (v: seq<LossRec>)
    requires vec_idx < |s.Nodes(level, layer)| <= |v0|
    requires s.Nodes(level, layer)[vec_idx].policytc_id != 0
    requires var node := s.Nodes(level, layer)[vec_idx];
             v0[vec_idx] == FRESH || v0[vec_idx] == Identified(v0[vec_idx], node, s.Tiv(level, node.agg_id))
    ensures var node := s.Nodes(level, layer)[vec_idx];
            v == v0[vec_idx := Plus(Identified(v0[vec_idx], node, s.Tiv(level, node.agg_id)), p)]
  {
    var node := s.Nodes(level, layer)[vec_idx];
    var x := v0[vec_idx];
    if x.policytc_id != node.policytc_id {
      x := x.(policytc_id := node.policytc_id);
      x := x.(agg_id := node.agg_id);
      x := x.(item_idx := Some(node.item_idx));
    }
    x := x.(loss := x.loss + p.loss);
    x := x.(retained_loss := x.retained_loss + p.retained_loss);
    x := x.(accumulated_tiv := s.Tiv(level, node.agg_id));
    x := x.(effective_deductible := x.effective_deductible + p.effective_deductible);
    x := x.(over_limit := x.over_limit + p.over_limit);
    x := x.(under_limit := x.under_limit + p.under_limit);
    v := v0[vec_idx := x];
  }

  /** The vector after the first i records of the level below are visited; only the first m are live. */
  ghost predicate Visited(s: Setup, level: nat, layer: nat, prev: seq<LossRec>, parent: seq<nat>, i: nat,
                          v: seq<LossRec>) {
    && |parent| <= |prev| && i <= |prev|
    && Partial(s, level, layer, prev[..Least(i, |parent|)], parent[..Least(i, |parent|)], v)
  }

  lemma VisitedAdd(s: Setup, level: nat, layer: nat, prev: seq<LossRec>, parent: seq<nat>, i: nat, v0: seq<LossRec>,
                   v: seq<LossRec>)
    requires Visited(s, level, layer, prev, parent, i, v0) && i < |parent| && parent[i] < |s.Nodes(level, layer)|
    requires var node := s.Nodes(level, layer)[parent[i]];
             v == v0[parent[i] := Plus(Identified(v0[parent[i]], node, s.Tiv(level, node.agg_id)), prev[i])]
    ensures Visited(s, level, layer, prev, parent, i + 1, v)
  {
    assert prev[..i + 1] == prev[..i] + [prev[i]];
    assert parent[..i + 1] == parent[..i] + [parent[i]];
    assert Least(i, |parent|) == i && Least(i + 1, |parent|) == i + 1;
    PartialSnoc(s, level, layer, prev[..i], parent[..i], v0, prev[i], parent[i], v);
  }

  /** One step: a live record joins its aggregate if that has this layer. */
  method Visit(s: Setup, level: nat, layer: nat, prev: seq<LossRec>, i: nat, v0: seq<LossRec>, ghost parent: seq<nat>)
      returns (v: seq<LossRec>)
    requires 1 <= level < |s.levels| == |s.inputs| == |s.layers| && 1 <= layer
    requires LinkFits(s, level, parent) && LayerFits(s, level, layer)
    requires SameAggregates(prev, s.Nodes(level - 1, 1)) && i < |prev|
    requires Visited(s, level, layer, prev, parent, i, v0)
    ensures Visited(s, level, layer, prev, parent, i + 1, v)
  {
    v := v0;
    if prev[i].agg_id != 0 {
      assert i < |parent|;
      var agg := s.inputs[level].Target(prev[i].agg_id);
      if layer <= s.inputs[level].Layers(agg) {
        var vec_idx := s.levels[level].lookup[agg - 1];
        v := AddRecord(s, level, layer, v, prev[i], vec_idx);
        VisitedAdd(s, level, layer, prev, parent, i, v0, v);
      }
    }
  }

  /** The loop over the records of the level below. */
  method Accumulate(s: Setup, level: nat, layer: nat, prev: seq<LossRec>, v0: seq<LossRec>, ghost parent: seq<nat>)
      returns (v: seq<LossRec>)
    requires 1 <= level < |s.levels| == |s.inputs| == |s.layers| && 1 <= layer
    requires LinkFits(s, level, parent) && LayerFits(s, level, layer) && s.Width(level) <= s.Size(level)
    requires SameAggregates(prev, s.Nodes(level - 1, 1))
    requires |v0| == s.Size(level)
    requires forall j :: 0 <= j < |v0| ==> Idle(v0[j]) && (j < |s.Nodes(level, layer)| ==> v0[j] == FRESH)
    ensures |parent| <= |prev| && Partial(s, level, layer, prev[..|parent|], parent, v)
  {
    v := v0;
    for i := 0 to |prev|
      invariant Visited(s, level, layer, prev, parent, i, v)
    {
      v := Visit(s, level, layer, prev, i, v, parent);
    }
    assert parent[..|parent|] == parent;
  }

  ghost predicate SameAggregates(v: seq<LossRec>, nodes: seq<PolicyNode>) {
    && |nodes| <= |v|
    && (forall j :: 0 <= j < |nodes| ==> v[j].agg_id == nodes[j].agg_id >= 1)
    && (forall j :: |nodes| <= j < |v| ==> v[j].agg_id == 0)
  }

  function Least(a: nat, b: nat): nat { if a < b then a else b }

  // ---------- retained losses and policy terms ----------

  /** The last part of the hand-over: what the layer before retained. */
  method CarryRetained(v0: seq<LossRec>, previous_layer: seq<LossRec>) returns (v: seq<LossRec>)
    ensures |v| == |v0|
    ensures |v0| == |previous_layer| ==> forall j :: 0 <= j < |v| ==>
              v[j] == v0[j].(previous_layer_retained_loss := previous_layer[j].retained_loss)
  {
    v := v0;
    if |v| == |previous_layer| {
      for i := 0 to |v|
        invariant |v| == |v0|
        invariant forall j :: 0 <= j < i ==>
                    v[j] == v0[j].(previous_layer_retained_loss := previous_layer[j].retained_loss)
        invariant forall j :: i <= j < |v| ==> v[j] == v0[j]
      {
        v := v[i := v[i].(previous_layer_retained_loss := previous_layer[i].retained_loss)];
      }
    }
  }

  /** A record with neither loss nor retained loss, or without terms, is left alone. */
  function Applied(profiles: seq<Profile>, x: LossRec, layer: int): LossRec {
    if (x.loss > 0.0 || x.retained_loss > 0.0) && 0 < x.policytc_id < |profiles|
       && profiles[x.policytc_id].calcrule_id != NOOP
    then Rule(profiles[x.policytc_id], x, layer) else x
  }

  lemma RuleKeepsIdentity(p: Profile, x: LossRec, layer: int)
    ensures var y := Rule(p, x, layer);
            y.agg_id == x.agg_id && y.policytc_id == x.policytc_id && y.item_idx == x.item_idx
            && y.accumulated_tiv == x.accumulated_tiv && y.item_prop == x.item_prop && y.proportion == x.proportion
  {}

  method DoFmCalcNormal(profiles: seq<Profile>, v0: seq<LossRec>, layer: int, ghost nodes: seq<PolicyNode>)
      returns (v: seq<LossRec>)
    requires SameAggregates(v0, nodes)
    requires forall j :: 0 <= j < |nodes| ==> v0[j].policytc_id < |profiles|
    ensures |v| == |v0|
    ensures forall j :: 0 <= j < |nodes| ==> v[j] == Applied(profiles, v0[j], layer)
    ensures forall j :: |nodes| <= j < |v| ==> v[j] == v0[j]
  {
    v := v0;
    var i := 0;
    while i < |v|
      invariant 0 <= i <= |nodes| && |v| == |v0|
      invariant forall j :: 0 <= j < i ==> v[j] == Applied(profiles, v0[j], layer)
      invariant forall j :: i <= j < |v| ==> v[j] == v0[j]
      decreases |v| - i
    {
      var x := v[i];
      if x.agg_id == 0 { break; }
      if x.agg_id > 0 {
        if x.loss > 0.0 || x.retained_loss > 0.0 {
          if x.policytc_id > 0 {
            var profile := profiles[x.policytc_id];
            if profile.calcrule_id != NOOP {
              x := ApplyCalcRule(profile, x, layer);
              v := v[i := x];
            }
          }
        }
      }
      i := i + 1;
    }
  }

  /** Everything aggregate j is handed at a level and layer. */
  function Handed(s: Setup, level: nat, layer: nat, below: seq<LossRec>, parent: seq<nat>, node: PolicyNode,
                  retained: real, j: nat): LossRec
    requires |below| == |parent|
  {
    Gathered(below, parent, node, s.Tiv(level, node.agg_id), j).(previous_layer_retained_loss := retained)
  }

  /** Aggregate j's record is what its terms make of what it is handed. */
  ghost predicate Processed(s: Setup, level: nat, layer: nat, below: seq<LossRec>, parent: seq<nat>,
                            previous_layer: seq<LossRec>, v: seq<LossRec>, j: nat)
    requires |below| == |parent| && j < |s.Nodes(level, layer)| <= |v| && (layer > 1 ==> |previous_layer| == |v|)
  {
    v[j] == Applied(s.profiles,
                    Handed(s, level, layer, below, parent, s.Nodes(level, layer)[j],
                           if layer > 1 then previous_layer[j].retained_loss else 0.0, j), layer)
  }

  /** The vector of a level and layer is what its terms make of what it is handed. */
  ghost predicate Advanced(s: Setup, level: nat, layer: nat, below: seq<LossRec>, parent: seq<nat>,
                           previous_layer: seq<LossRec>, v: seq<LossRec>)
  {
    && |below| == |parent| && |v| == s.Size(level) && |s.Nodes(level, layer)| <= |v|
    && (layer > 1 ==> |previous_layer| == |v|)
    && (forall j: nat :: j < |s.Nodes(level, layer)| ==>
          Processed(s, level, layer, below, parent, previous_layer, v, j))
    && (forall j :: |s.Nodes(level, layer)| <= j < |v| ==> Idle(v[j]))
  }

  lemma AdvancedIsLive(s: Setup, level: nat, layer: nat, below: seq<LossRec>, parent: seq<nat>,
                       previous_layer: seq<LossRec>, v: seq<LossRec>)
    requires Advanced(s, level, layer, below, parent, previous_layer, v)
    ensures Live(v, s.Nodes(level, layer))
  {
    forall j | 0 <= j < |s.Nodes(level, layer)|
      ensures v[j].agg_id == s.Nodes(level, layer)[j].agg_id && v[j].policytc_id == s.Nodes(level, layer)[j].policytc_id
    {
      assert Processed(s, level, layer, below, parent, previous_layer, v, j);
      var x := Handed(s, level, layer, below, parent, s.Nodes(level, layer)[j],
                      if layer > 1 then previous_layer[j].retained_loss else 0.0, j);
      if 0 < x.policytc_id < |s.profiles| { RuleKeepsIdentity(s.profiles[x.policytc_id], x, layer); }
    }
  }

  /** One level and layer: reset, accumulate, carry over, apply the terms. */
  method Advance(s: Setup, level: nat, layer: nat, prev: seq<LossRec>, previous_layer: seq<LossRec>,
                 v0: seq<LossRec>, ghost parent: seq<nat>)
      returns (v: seq<LossRec>)
    requires 1 <= level < |s.levels| == |s.inputs| == |s.layers| && 1 <= layer
    requires LinkFits(s, level, parent) && LayerFits(s, level, layer) && s.Width(level) <= s.Size(level)
    requires SameAggregates(prev, s.Nodes(level - 1, 1))
    requires Resettable(v0, s.Nodes(level, layer), s.Size(level))
    requires layer > 1 ==> |previous_layer| == s.Size(level)
    ensures |parent| <= |prev| && Advanced(s, level, layer, prev[..|parent|], parent, previous_layer, v)
  {
    ghost var nodes := s.Nodes(level, layer);
    var fresh_ := Reset(v0, nodes, s.Size(level));
    var handed := Accumulate(s, level, layer, prev, fresh_, parent);
    ghost var below := prev[..|parent|];
    AllGathered(s, level, layer, below, parent, handed);
    var carried := handed;
    if layer > 1 { carried := CarryRetained(handed, previous_layer); }
    AllHanded(s, level, layer, below, parent, previous_layer, handed, carried);
    v := DoFmCalcNormal(s.profiles, carried, layer, nodes);
  }

  lemma AllGathered(s: Setup, level: nat, layer: nat, below: seq<LossRec>, parent: seq<nat>, v: seq<LossRec>)
    requires 1 <= level < |s.levels| == |s.inputs| == |s.layers| && 1 <= layer
    requires LinkFits(s, level, parent) && LayerFits(s, level, layer) && Partial(s, level, layer, below, parent, v)
    ensures forall j :: 0 <= j < |s.Nodes(level, layer)| ==>
              v[j] == Gathered(below, parent, s.Nodes(level, layer)[j], s.Tiv(level, s.Nodes(level, layer)[j].agg_id),
                               j)
  {}

  lemma AllHanded(s: Setup, level: nat, layer: nat, below: seq<LossRec>, parent: seq<nat>, previous_layer: seq<LossRec>,
                  handed: seq<LossRec>, carried: seq<LossRec>)
    requires |below| == |parent| && |handed| == |carried| && |s.Nodes(level, layer)| <= |handed|
    requires 1 <= level < |s.layers| && LayerFits(s, level, layer)
    requires forall j :: 0 <= j < |s.Nodes(level, layer)| ==>
               handed[j] == Gathered(below, parent, s.Nodes(level, layer)[j],
                                       s.Tiv(level, s.Nodes(level, layer)[j].agg_id), j)
    requires forall j :: |s.Nodes(level, layer)| <= j < |handed| ==> Idle(handed[j])
    requires layer > 1 ==> |previous_layer| == |handed|
    requires forall j :: 0 <= j < |carried| ==>
               carried[j] == if layer > 1
                             then handed[j].(previous_layer_retained_loss := previous_layer[j].retained_loss)
                             else handed[j]
    ensures SameAggregates(carried, s.Nodes(level, layer))
    ensures forall j :: 0 <= j < |s.Nodes(level, layer)| ==>
              carried[j] == Handed(s, level, layer, below, parent, s.Nodes(level, layer)[j],
                                   if layer > 1 then previous_layer[j].retained_loss else 0.0, j)
              && carried[j].policytc_id < |s.profiles|
    ensures forall j :: |s.Nodes(level, layer)| <= j < |carried| ==> Idle(carried[j])
  {}

  // ---------- the losses of a sample ----------

  /** The items of the event find their aggregates at level 0. */
  ghost predicate ItemsFit(s: Setup, items: seq<int>, owner: seq<nat>) {
    && |owner| == |items| && 1 <= |s.levels| == |s.inputs|
    && forall i :: 0 <= i < |items| ==>
         var agg := s.inputs[0].Target(items[i]);
         && 1 <= agg <= |s.levels[0].lookup| && s.levels[0].lookup[agg - 1] == owner[i]
         && owner[i] < s.Width(0) && s.Nodes(0, 1)[owner[i]].agg_id == agg
  }

  lemma StartedIsLive(v: seq<LossRec>, guls: seq<real>, tivs: seq<real>, owner: seq<nat>, nodes: seq<PolicyNode>)
    requires Started(v, guls, tivs, owner, nodes) && forall j :: 0 <= j < |nodes| ==> j in owner
    ensures Live(v, nodes)
  {}

  /** The tiv left in a record by the last of its items. */
  function LastTiv(tivs: seq<real>, owner: seq<nat>, j: nat): real
    requires |tivs| == |owner|
  {
    if tivs == [] then 0.0
    else if owner[|owner| - 1] == j then tivs[|tivs| - 1]
    else LastTiv(tivs[..|tivs| - 1], owner[..|owner| - 1], j)
  }

  /** A level 0 record: the ground-up loss of its items. */
  function Start(guls: seq<real>, tivs: seq<real>, owner: seq<nat>, node: PolicyNode, j: nat): LossRec
    requires |guls| == |tivs| == |owner|
  {
    if j in owner then
      FRESH.(loss := SumWhere(guls, owner, j), accumulated_tiv := LastTiv(tivs, owner, j), agg_id := node.agg_id,
             policytc_id := node.policytc_id, item_idx := Some(node.item_idx))
    else FRESH
  }

  lemma StartSnoc(guls: seq<real>, tivs: seq<real>, owner: seq<nat>, g: real, tiv: real, q: nat, node: PolicyNode,
                  j: nat)
    requires |guls| == |tivs| == |owner|
    ensures var x := Start(guls, tivs, owner, node, j);
            Start(guls + [g], tivs + [tiv], owner + [q], node, j)
            == if q == j
               then x.(loss := x.loss + g, accumulated_tiv := tiv, agg_id := node.agg_id,
                       policytc_id := node.policytc_id, item_idx := Some(node.item_idx))
               else x
  {
    assert (guls + [g])[..|guls|] == guls && (tivs + [tiv])[..|tivs|] == tivs && (owner + [q])[..|owner|] == owner;
    if j !in owner { ZeroSumWhere(guls, owner, j); }
  }

  ghost predicate Started(v: seq<LossRec>, guls: seq<real>, tivs: seq<real>, owner: seq<nat>, nodes: seq<PolicyNode>) {
    && |guls| == |tivs| == |owner| && |v| == |nodes|
    && forall j :: 0 <= j < |v| ==> v[j] == Start(guls, tivs, owner, nodes[j], j)
  }

  lemma StartedSnoc(v0: seq<LossRec>, guls: seq<real>, tivs: seq<real>, owner: seq<nat>, nodes: seq<PolicyNode>,
                    i: nat, v: seq<LossRec>)
    requires |guls| == |tivs| == |owner| && i < |owner| && owner[i] < |nodes|
    requires Started(v0, guls[..i], tivs[..i], owner[..i], nodes)
    requires var q, x, node := owner[i], v0[owner[i]], nodes[owner[i]];
             v == v0[q := x.(loss := x.loss + guls[i], accumulated_tiv := tivs[i], agg_id := node.agg_id,
                             policytc_id := node.policytc_id, item_idx := Some(node.item_idx))]
    ensures Started(v, guls[..i + 1], tivs[..i + 1], owner[..i + 1], nodes)
  {
    assert guls[..i + 1] == guls[..i] + [guls[i]];
    assert tivs[..i + 1] == tivs[..i] + [tivs[i]];
    assert owner[..i + 1] == owner[..i] + [owner[i]];
    forall j | 0 <= j < |v| ensures v[j] == Start(guls[..i + 1], tivs[..i + 1], owner[..i + 1], nodes[j], j) {
      StartSnoc(guls[..i], tivs[..i], owner[..i], guls[i], tivs[i], owner[i], nodes[j], j);
    }
  }

  method StartItem(v0: seq<LossRec>, vec_idx: nat, gul: real, tiv: real, node: PolicyNode) returns (v: seq<LossRec>)
    requires vec_idx < |v0|
    ensures var x := v0[vec_idx];
            v == v0[vec_idx := x.(loss := x.loss + gul, accumulated_tiv := tiv, agg_id := node.agg_id,
                                  policytc_id := node.policytc_id, item_idx := Some(node.item_idx))]
  {
    v := v0;
    var x := v[vec_idx];
    x := x.(loss := x.loss + gul);
    x := x.(agg_id := node.agg_id);
    x := x.(item_idx := Some(node.item_idx));
    x := x.(accumulated_tiv := tiv);
    x := x.(policytc_id := node.policytc_id);
    v := v[vec_idx := x];
  }

  /** The level 0 vector of a sample; last_agg_id saves lookups. itemTivs are zero unless the stream is a gul stream. */
  method StartSample(s: Setup, items: seq<int>, guls: seq<real>, itemTivs: seq<real>, ghost owner: seq<nat>)
      returns (v: seq<LossRec>)
    requires ItemsFit(s, items, owner) && |guls| == |items| == |itemTivs|
    ensures Started(v, guls, itemTivs, owner, s.Nodes(0, 1))
  {
    var nodes := s.Nodes(0, 1);
    v := Resized([], |nodes|);
    var last_agg_id, vec_idx := -1, 0;
    assert owner[..0] == [] && guls[..0] == [] && itemTivs[..0] == [];
    for i := 0 to |guls|
      invariant Started(v, guls[..i], itemTivs[..i], owner[..i], nodes)
      invariant last_agg_id != -1 ==> 1 <= last_agg_id <= |s.levels[0].lookup|
                                      && vec_idx == s.levels[0].lookup[last_agg_id - 1]
    {
      var agg_id := s.inputs[0].Target(items[i]);
      if last_agg_id != agg_id {
        vec_idx := s.levels[0].lookup[agg_id - 1];
        last_agg_id := agg_id;
      }
      ghost var before := v;
      v := StartItem(v, vec_idx, guls[i], itemTivs[i], nodes[vec_idx]);
      StartedSnoc(before, guls, itemTivs, owner, nodes, i, v);
    }
    assert owner[..|owner|] == owner && guls[..|guls|] == guls && itemTivs[..|guls|] == itemTivs;
  }

  // ---------- the recursion ----------

  function At(vecs: seq<seq<seq<LossRec>>>, level: int, layer: int): seq<LossRec> {
    if 0 <= level < |vecs| && 0 <= layer < |vecs[level]| then vecs[level][layer] else []
  }

  /** The vectors that feed a level and layer, cut to the live records of the level below. */
  function FeedOf(s: Setup, vecs: seq<seq<seq<LossRec>>>, level: nat, layer: nat): seq<LossRec> {
    var prev := At(vecs, level - 1, s.FeedLayer(level, layer));
    if level >= 1 && s.Width(level - 1) <= |prev| then prev[..s.Width(level - 1)] else prev
  }

  /** The vector of a level and layer is the right one, given those it depends on. */
  ghost predicate DoneAt(s: Setup, parents: seq<seq<nat>>, vecs: seq<seq<seq<LossRec>>>, level: nat, layer: nat) {
    if level == 0 then Live(At(vecs, 0, 1), s.Nodes(0, 1))
    else level < |parents|
         && Advanced(s, level, layer, FeedOf(s, vecs, level, layer), parents[level], At(vecs, level, layer - 1),
                     At(vecs, level, layer))
  }

  predicate IsPlace(s: Setup, level: nat, layer: nat) {
    if level == 0 then layer == 1 else level < |s.levels| && 1 <= layer <= s.LastLayer(level)
  }

  predicate Before(l: nat, k: nat, level: nat, layer: nat) { l < level || (l == level && k < layer) }

  ghost predicate DoneBefore(s: Setup, parents: seq<seq<nat>>, vecs: seq<seq<seq<LossRec>>>, level: nat, layer: nat) {
    forall l: nat, k: nat {:trigger DoneAt(s, parents, vecs, l, k)} ::
      IsPlace(s, l, k) && Before(l, k, level, layer) ==> DoneAt(s, parents, vecs, l, k)
  }

  ghost predicate RestResettable(s: Setup, vecs: seq<seq<seq<LossRec>>>, level: nat, layer: nat) {
    forall l: nat, k: nat :: l > 0 && IsPlace(s, l, k) && !Before(l, k, level, layer) ==>
      Resettable(At(vecs, l, k), s.Nodes(l, k), s.Size(l))
  }

  ghost predicate Shaped(s: Setup, vecs: seq<seq<seq<LossRec>>>) {
    |vecs| == |s.levels| && forall l :: 0 <= l < |vecs| ==> |vecs[l]| == s.maxLayer + 1
  }

  function Put(vecs: seq<seq<seq<LossRec>>>, level: nat, layer: nat, v: seq<LossRec>): (r: seq<seq<seq<LossRec>>>)
    requires level < |vecs| && layer < |vecs[level]|
    ensures |r| == |vecs| && forall l :: 0 <= l < |r| ==> |r[l]| == |vecs[l]|
    ensures forall l: int, k: int :: At(r, l, k) == if l == level && k == layer then v else At(vecs, l, k)
  {
    vecs[level := vecs[level][layer := v]]
  }

  /** Earlier vectors do not depend on later ones. */
  lemma DoneStays(s: Setup, parents: seq<seq<nat>>, vecs: seq<seq<seq<LossRec>>>, level: nat, layer: nat,
                  v: seq<LossRec>, l: nat, k: nat)
    requires level < |vecs| && layer < |vecs[level]| && level >= 1
    requires DoneAt(s, parents, vecs, l, k) && IsPlace(s, l, k) && Before(l, k, level, layer)
    ensures DoneAt(s, parents, Put(vecs, level, layer, v), l, k)
  {
    var after := Put(vecs, level, layer, v);
    assert At(after, l, k) == At(vecs, l, k);
    if l > 0 {
      assert At(after, l, k - 1) == At(vecs, l, k - 1);
      FeedStays(s, vecs, after, l, k);
    }
  }

  lemma FeedStays(s: Setup, vecs: seq<seq<seq<LossRec>>>, after: seq<seq<seq<LossRec>>>, level: nat, layer: nat)
    requires At(after, level - 1, s.FeedLayer(level, layer)) == At(vecs, level - 1, s.FeedLayer(level, layer))
    ensures FeedOf(s, after, level, layer) == FeedOf(s, vecs, level, layer)
  {}

  /** A live vector of any of a level's own layers has the aggregates of the level. */
  lemma LiveIsSame(s: Setup, level: nat, layer: nat, v: seq<LossRec>)
    requires level < |s.layers| && 1 <= layer <= s.layers[level]
    requires LayerFits(s, level, layer) && Live(v, s.Nodes(level, layer))
    ensures SameAggregates(v, s.Nodes(level, 1))
  {}

  lemma DoneIsLive(s: Setup, parents: seq<seq<nat>>, vecs: seq<seq<seq<LossRec>>>, level: nat, layer: nat)
    requires IsPlace(s, level, layer) && DoneAt(s, parents, vecs, level, layer)
    ensures Live(At(vecs, level, layer), s.Nodes(level, layer))
    ensures level > 0 ==> |At(vecs, level, layer)| == s.Size(level)
  {
    if level > 0 {
      AdvancedIsLive(s, level, layer, FeedOf(s, vecs, level, layer), parents[level],
                     At(vecs, level, layer - 1), At(vecs, level, layer));
    }
  }

  /** l and k are the place that feeds level and layer. */
  ghost predicate Feeds(s: Setup, l: nat, k: nat, level: nat, layer: nat) {
    && level == l + 1 && k == s.FeedLayer(level, layer)
    && IsPlace(s, l, k) && l < |s.layers| && 1 <= k <= s.layers[l] && LayerFits(s, l, k)
  }

  lemma FeedPlace(s: Setup, parents: seq<seq<nat>>, level: nat, layer: nat)
    requires Fits(s, parents) && 1 <= level && IsPlace(s, level, layer)
    ensures Feeds(s, level - 1, s.FeedLayer(level, layer), level, layer)
  {}

  /** What feeds a level and layer is there when its turn comes. */
  lemma FeedReady(s: Setup, parents: seq<seq<nat>>, vecs: seq<seq<seq<LossRec>>>, l: nat, k: nat, level: nat,
                  layer: nat)
    requires Feeds(s, l, k, level, layer) && DoneBefore(s, parents, vecs, level, layer)
    ensures SameAggregates(At(vecs, l, k), s.Nodes(l, 1))
  {
    assert DoneAt(s, parents, vecs, l, k);
    DoneIsLive(s, parents, vecs, l, k);
    LiveIsSame(s, l, k, At(vecs, l, k));
  }

  lemma PreviousLayerReady(s: Setup, parents: seq<seq<nat>>, vecs: seq<seq<seq<LossRec>>>, level: nat, layer: nat)
    requires level >= 1 && layer > 1 && IsPlace(s, level, layer) && DoneBefore(s, parents, vecs, level, layer)
    ensures |At(vecs, level, layer - 1)| == s.Size(level)
  {
    assert IsPlace(s, level, layer - 1) && DoneAt(s, parents, vecs, level, layer - 1);
  }

  lemma DoneNow(s: Setup, parents: seq<seq<nat>>, vecs: seq<seq<seq<LossRec>>>, level: nat, layer: nat,
                v: seq<LossRec>)
    requires 1 <= level < |vecs| && layer < |vecs[level]| && level < |parents|
    requires Advanced(s, level, layer, FeedOf(s, vecs, level, layer), parents[level], At(vecs, level, layer - 1), v)
    ensures DoneAt(s, parents, Put(vecs, level, layer, v), level, layer)
  {
    FeedStays(s, vecs, Put(vecs, level, layer, v), level, layer);
  }

  /** Everything a layer's calculation needs is in place. */
  ghost predicate Ready(s: Setup, parents: seq<seq<nat>>, vecs: seq<seq<seq<LossRec>>>, level: nat, layer: nat) {
    && 1 <= level < |s.levels| == |s.inputs| == |s.layers| == |parents| && 1 <= layer <= s.maxLayer
    && LinkFits(s, level, parents[level]) && LayerFits(s, level, layer) && s.Width(level) <= s.Size(level)
    && SameAggregates(At(vecs, level - 1, s.FeedLayer(level, layer)), s.Nodes(level - 1, 1))
    && Resettable(At(vecs, level, layer), s.Nodes(level, layer), s.Size(level))
    && (layer > 1 ==> |At(vecs, level, layer - 1)| == s.Size(level))
  }

  /** The set-up of one place, and of the place that feeds it. */
  ghost predicate PlaceFits(s: Setup, parents: seq<seq<nat>>, level: nat, layer: nat) {
    && 1 <= level < |s.levels| == |s.inputs| == |s.layers| == |parents| && 1 <= layer <= s.maxLayer
    && LinkFits(s, level, parents[level]) && LayerFits(s, level, layer) && s.Width(level) <= s.Size(level)
    && IsPlace(s, level, layer) && Feeds(s, level - 1, s.FeedLayer(level, layer), level, layer)
  }

  lemma FitsHere(s: Setup, parents: seq<seq<nat>>, level: nat, layer: nat)
    requires Fits(s, parents) && 1 <= level && IsPlace(s, level, layer)
    ensures PlaceFits(s, parents, level, layer)
  {
    FeedPlace(s, parents, level, layer);
  }

  lemma RestHere(s: Setup, vecs: seq<seq<seq<LossRec>>>, level: nat, layer: nat)
    requires RestResettable(s, vecs, level, layer) && level > 0 && IsPlace(s, level, layer)
    ensures Resettable(At(vecs, level, layer), s.Nodes(level, layer), s.Size(level))
  {}

  lemma GetReady(s: Setup, parents: seq<seq<nat>>, vecs: seq<seq<seq<LossRec>>>, level: nat, layer: nat)
    requires PlaceFits(s, parents, level, layer) && DoneBefore(s, parents, vecs, level, layer)
    requires Resettable(At(vecs, level, layer), s.Nodes(level, layer), s.Size(level))
    ensures Ready(s, parents, vecs, level, layer)
  {
    FeedReady(s, parents, vecs, level - 1, s.FeedLayer(level, layer), level, layer);
    if layer > 1 { PreviousLayerReady(s, parents, vecs, level, layer); }
  }

  /** The record of one place settles it and leaves everything else as it was. */
  lemma OneMoreDone(s: Setup, parents: seq<seq<nat>>, vecs: seq<seq<seq<LossRec>>>, level: nat, layer: nat,
                    v: seq<LossRec>)
    requires Fits(s, parents) && Shaped(s, vecs) && level >= 1 && IsPlace(s, level, layer)
    requires DoneBefore(s, parents, vecs, level, layer) && layer <= s.maxLayer
    requires Advanced(s, level, layer, FeedOf(s, vecs, level, layer), parents[level], At(vecs, level, layer - 1), v)
    ensures DoneBefore(s, parents, Put(vecs, level, layer, v), level, layer + 1)
  {
    DoneNow(s, parents, vecs, level, layer, v);
    forall l: nat, k: nat | IsPlace(s, l, k) && Before(l, k, level, layer)
      ensures DoneAt(s, parents, Put(vecs, level, layer, v), l, k)
    {
      DoneStays(s, parents, vecs, level, layer, v, l, k);
    }
  }

  lemma RestStays(s: Setup, parents: seq<seq<nat>>, vecs: seq<seq<seq<LossRec>>>, level: nat, layer: nat,
                  v: seq<LossRec>)
    requires Shaped(s, vecs) && level < |vecs| && layer <= s.maxLayer && RestResettable(s, vecs, level, layer)
    ensures RestResettable(s, Put(vecs, level, layer, v), level, layer + 1)
  {
    forall l: nat, k: nat | l > 0 && IsPlace(s, l, k) && !Before(l, k, level, layer + 1)
      ensures Resettable(At(Put(vecs, level, layer, v), l, k), s.Nodes(l, k), s.Size(l))
    {}
  }

  /** When the last layer of a level is done, so is the level. */
  lemma NextLevel(s: Setup, parents: seq<seq<nat>>, vecs: seq<seq<seq<LossRec>>>, level: nat)
    requires Fits(s, parents) && 1 <= level < |s.levels|
    requires DoneBefore(s, parents, vecs, level, s.LastLayer(level) + 1)
    requires RestResettable(s, vecs, level, s.LastLayer(level) + 1)
    ensures DoneBefore(s, parents, vecs, level + 1, 1) && RestResettable(s, vecs, level + 1, 1)
  {
    assert forall l: nat, k: nat :: IsPlace(s, l, k) && Before(l, k, level + 1, 1) ==>
             Before(l, k, level, s.LastLayer(level) + 1);
    assert forall l: nat, k: nat :: IsPlace(s, l, k) && !Before(l, k, level + 1, 1) ==>
             !Before(l, k, level, s.LastLayer(level) + 1);
  }

  lemma FeedIs(s: Setup, parents: seq<seq<nat>>, vecs: seq<seq<seq<LossRec>>>, level: nat, layer: nat)
    requires Ready(s, parents, vecs, level, layer)
    ensures var prev := At(vecs, level - 1, s.FeedLayer(level, layer));
            |parents[level]| <= |prev| && FeedOf(s, vecs, level, layer) == prev[..|parents[level]|]
  {}

  lemma Prepare(s: Setup, parents: seq<seq<nat>>, vecs: seq<seq<seq<LossRec>>>, level: nat, layer: nat)
    requires Fits(s, parents) && level >= 1 && IsPlace(s, level, layer)
    requires DoneBefore(s, parents, vecs, level, layer) && RestResettable(s, vecs, level, layer)
    ensures Ready(s, parents, vecs, level, layer)
  {
    FitsHere(s, parents, level, layer);
    RestHere(s, vecs, level, layer);
    GetReady(s, parents, vecs, level, layer);
  }

  /** The choice of what feeds a layer, and its calculation. */
  method NextVector(s: Setup, ghost parents: seq<seq<nat>>, vecs: seq<seq<seq<LossRec>>>, level: nat, layer: nat,
                    previous_layer: nat)
      returns (v: seq<LossRec>)
    requires Ready(s, parents, vecs, level, layer) && (layer > 1 ==> previous_layer == layer - 1)
    ensures Advanced(s, level, layer, FeedOf(s, vecs, level, layer), parents[level], At(vecs, level, layer - 1), v)
  {
    var previous_layer_id := 1;
    if layer <= s.layers[level - 1] {
      previous_layer_id := layer;
    }
    FeedIs(s, parents, vecs, level, layer);
    var prev := At(vecs, level - 1, previous_layer_id);
    // the layer before is read above layer 1 only
    var before := At(vecs, level, if layer > 1 then previous_layer else 0);
    v := Advance(s, level, layer, prev, before, At(vecs, level, layer), parents[level]);
  }

  class Calculation {
    const s: Setup
    ghost const parents: seq<seq<nat>>
    var agg_vecs: seq<seq<seq<LossRec>>>

    ghost predicate Valid()
      reads this
    {
      Fits(s, parents) && Shaped(s, agg_vecs)
    }

    /** For one event: no vector is filled yet. */
    constructor (s: Setup, ghost parents: seq<seq<nat>>)
      requires Fits(s, parents)
      ensures this.s == s && this.parents == parents
      ensures Valid() && RestResettable(s, agg_vecs, 1, 1)
    {
      this.s, this.parents := s, parents;
      agg_vecs := seq(|s.levels|, _ => seq(s.maxLayer + 1, _ => []));
    }

    /** Everything from level and layer on, in order; the layer just done is previous_layer. */
    method DoFmCalcR(level: nat, layer: nat, previous_layer: nat)
      requires Valid() && level >= 1 && IsPlace(s, level, layer) && (layer > 1 ==> previous_layer == layer - 1)
      requires DoneBefore(s, parents, agg_vecs, level, layer) && RestResettable(s, agg_vecs, level, layer)
      modifies this
      ensures Valid() && DoneBefore(s, parents, agg_vecs, |s.levels|, 1)
      ensures At(agg_vecs, 0, 1) == old(At(agg_vecs, 0, 1))
      decreases |s.levels| - level, s.maxLayer + 1 - layer
    {
      CalculateLayer(level, layer, previous_layer);
      if level == s.Top() {
        if layer < s.maxLayer {
          DoFmCalcR(level, layer + 1, layer);
        } else {
          NextLevel(s, parents, agg_vecs, level);
        }
      } else if layer < s.layers[level] {
        DoFmCalcR(level, layer + 1, layer);
      } else {
        NextLevel(s, parents, agg_vecs, level);
        DoFmCalcR(level + 1, 1, layer);
      }
    }

    /** The body of the recursion, up to the output. */
    method CalculateLayer(level: nat, layer: nat, previous_layer: nat)
      requires Valid() && level >= 1 && IsPlace(s, level, layer) && (layer > 1 ==> previous_layer == layer - 1)
      requires DoneBefore(s, parents, agg_vecs, level, layer) && RestResettable(s, agg_vecs, level, layer)
      modifies this
      ensures Valid() && layer <= s.maxLayer
      ensures DoneBefore(s, parents, agg_vecs, level, layer + 1) && RestResettable(s, agg_vecs, level, layer + 1)
      ensures At(agg_vecs, 0, 1) == old(At(agg_vecs, 0, 1))
    {
      Prepare(s, parents, agg_vecs, level, layer);
      var v := NextVector(s, parents, agg_vecs, level, layer, previous_layer);
      OneMoreDone(s, parents, agg_vecs, level, layer, v);
      RestStays(s, parents, agg_vecs, level, layer, v);
      agg_vecs := Put(agg_vecs, level, layer, v);
    }

    /** One pass of dofm's loop over the samples: afterwards the next sample can be run. */
    method RunSample(items: seq<int>, guls: seq<real>, itemTivs: seq<real>, ghost owner: seq<nat>)
      requires Valid() && RestResettable(s, agg_vecs, 1, 1)
      requires ItemsFit(s, items, owner) && (forall j :: 0 <= j < s.Width(0) ==> j in owner)
      requires |guls| == |items| == |itemTivs|
      modifies this
      ensures Valid() && RestResettable(s, agg_vecs, 1, 1)
      ensures Started(At(agg_vecs, 0, 1), guls, itemTivs, owner, s.Nodes(0, 1))
      ensures DoneBefore(s, parents, agg_vecs, |s.levels|, 1)
    {
      var agg_vec := StartSample(s, items, guls, itemTivs, owner);
      StartedIsLive(agg_vec, guls, itemTivs, owner, s.Nodes(0, 1));
      SampleStart(s, parents, agg_vecs, agg_vec);
      agg_vecs := Put(agg_vecs, 0, 1, agg_vec);
      DoFmCalcR(1, 1, 1);
      DoneIsResettable(s, parents, agg_vecs);
    }
  }

  lemma SampleStart(s: Setup, parents: seq<seq<nat>>, vecs: seq<seq<seq<LossRec>>>, v: seq<LossRec>)
    requires Fits(s, parents) && Shaped(s, vecs) && RestResettable(s, vecs, 1, 1) && Live(v, s.Nodes(0, 1))
    ensures IsPlace(s, 1, 1) && Shaped(s, Put(vecs, 0, 1, v))
    ensures DoneBefore(s, parents, Put(vecs, 0, 1, v), 1, 1) && RestResettable(s, Put(vecs, 0, 1, v), 1, 1)
  {
    var after := Put(vecs, 0, 1, v);
    forall l: nat, k: nat | l > 0 && IsPlace(s, l, k) && !Before(l, k, 1, 1)
      ensures Resettable(At(after, l, k), s.Nodes(l, k), s.Size(l))
    {}
  }

  lemma DoneIsResettable(s: Setup, parents: seq<seq<nat>>, vecs: seq<seq<seq<LossRec>>>)
    requires Fits(s, parents) && DoneBefore(s, parents, vecs, |s.levels|, 1)
    ensures RestResettable(s, vecs, 1, 1)
  {
    forall l: nat, k: nat | l > 0 && IsPlace(s, l, k) && !Before(l, k, 1, 1)
      ensures Resettable(At(vecs, l, k), s.Nodes(l, k), s.Size(l))
    {
      FitsHere(s, parents, l, k);
      assert DoneAt(s, parents, vecs, l, k);
      PlaceResettable(s, parents, vecs, l, k);
    }
  }

  lemma PlaceResettable(s: Setup, parents: seq<seq<nat>>, vecs: seq<seq<seq<LossRec>>>, level: nat, layer: nat)
    requires 1 <= level < |s.layers| && IsPlace(s, level, layer) && LayerFits(s, level, layer)
    requires DoneAt(s, parents, vecs, level, layer)
    ensures Resettable(At(vecs, level, layer), s.Nodes(level, layer), s.Size(level))
  {
    DoneIsLive(s, parents, vecs, level, layer);
  }
}
