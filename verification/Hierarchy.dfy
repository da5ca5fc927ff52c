/**
  dofm: building the hierarchy of aggregates for the items of one event, level by level.
*/
module Hierarchy {
  import opened FinancialStructs
  import opened RealSums

  /**
    What is known of a level beforehand: the aggregate each aggregate of the level below goes
    to, the profile of each aggregate and layer (position 0 of a layer list is not used) and
    the largest aggregate id.
  */
  datatype LevelInput = LevelInput(pfm: seq<int>, policy_tc: seq<seq<int>>, maxAgg: nat) {
    function Target(agg: int): int { if 0 <= agg < |pfm| then pfm[agg] else 0 }
    function Layers(agg: int): int { if 0 <= agg < |policy_tc| then |policy_tc[agg]| - 1 else -1 }
    function Policy(agg: int, layer: int): int {
      if 1 <= layer <= Layers(agg) then policy_tc[agg][layer] else 0
    }
  }

  const NONE: int := -2

  /** Every aggregate handed up has a place at this level, with at least one layer. */
  ghost predicate InputFits(input: LevelInput, prev: seq<PolicyNode>, maxLayer: nat) {
    forall i :: 0 <= i < |prev| ==>
      1 <= input.Target(prev[i].agg_id) <= input.maxAgg && 1 <= input.Layers(input.Target(prev[i].agg_id)) <= maxLayer
  }

  // ---------- the two ways an aggregate receives items ----------

  function Joined(v: seq<PolicyNode>, idx: int, items: seq<nat>): seq<PolicyNode>
    requires 0 <= idx < |v|
  {
    v[idx := v[idx].(item_idx := v[idx].item_idx + items)]
  }

  /** A new aggregate: one node in each of its layers. */
  method CreateNode(input: LevelInput, next0: seq<seq<PolicyNode>>, lookup0: seq<int>, agg: int, items: seq<nat>)
      returns (next: seq<seq<PolicyNode>>, lookup: seq<int>)
    requires 1 <= agg <= |lookup0| && 1 <= input.Layers(agg) < |next0|
    ensures Created(input, next0, lookup0, agg, items, next, lookup)
  {
    next, lookup := next0, lookup0;
    for layer := 1 to input.Layers(agg) + 1
      invariant |next| == |next0| && |lookup| == |lookup0|
      invariant forall l :: 1 <= l < layer ==> next[l] == next0[l] + [PolicyNode(input.Policy(agg, l), agg, items)]
      invariant forall l :: 0 <= l < |next| && !(1 <= l < layer) ==> next[l] == next0[l]
      invariant layer == 1 ==> lookup == lookup0
      invariant layer > 1 ==> lookup == lookup0[agg - 1 := |next0[layer - 1]|]
    {
      next := next[layer := next[layer] + [PolicyNode(input.Policy(agg, layer), agg, items)]];
      lookup := lookup[agg - 1 := |next[layer]| - 1];
    }
    assert lookup == lookup0[agg - 1 := |next0[input.Layers(agg)]|];
  }

  /** A known aggregate: the items join its node in each of its layers. */
  method AppendItems(input: LevelInput, next0: seq<seq<PolicyNode>>, idx: int, agg: int, items: seq<nat>)
      returns (next: seq<seq<PolicyNode>>)
    requires 1 <= input.Layers(agg) < |next0|
    requires forall l :: 1 <= l <= input.Layers(agg) ==> 0 <= idx < |next0[l]|
    ensures Appended(input, next0, idx, agg, items, next)
  {
    next := next0;
    for layer := 1 to input.Layers(agg) + 1
      invariant |next| == |next0|
      invariant forall l :: 1 <= l < layer ==> next[l] == Joined(next0[l], idx, items)
      invariant forall l :: 0 <= l < |next| && !(1 <= l < layer) ==> next[l] == next0[l]
    {
      next := next[layer := Joined(next[layer], idx, items)];
    }
  }

  // ---------- an exact hierarchy ----------

  /** The items below aggregate j: the item lists of its children, in order. */
  function Gather(prev: seq<PolicyNode>, parent: seq<nat>, j: nat): seq<nat>
    requires |prev| == |parent|
  {
    if prev == [] then []
    else
      var n := |prev| - 1;
      Gather(prev[..n], parent[..n], j) + if parent[n] == j then prev[n].item_idx else []
  }

  /** Looking up an aggregate id finds the aggregate's position, and nothing else is found. */
  ghost predicate Indexed(base: seq<PolicyNode>, lookup: seq<int>) {
    && (forall j :: 0 <= j < |base| ==> 1 <= base[j].agg_id <= |lookup| && lookup[base[j].agg_id - 1] == j)
    && (forall a :: 0 <= a < |lookup| && lookup[a] != NONE ==>
          0 <= lookup[a] < |base| && base[lookup[a]].agg_id == a + 1)
  }

  /** Each node holds the items of its children, and it has some. */
  ghost predicate Holds(input: LevelInput, prev: seq<PolicyNode>, base: seq<PolicyNode>, parent: seq<nat>) {
    && |parent| == |prev|
    && (forall i :: 0 <= i < |prev| ==> parent[i] < |base| && base[parent[i]].agg_id == input.Target(prev[i].agg_id))
    && (forall j :: 0 <= j < |base| ==> base[j].item_idx == Gather(prev, parent, j) && j in parent)
  }

  /** Layer l has a node at position j exactly if aggregate j has that layer, and it is the same node. */
  ghost predicate LayerOf(input: LevelInput, base: seq<PolicyNode>, v: seq<PolicyNode>, l: int) {
    && |v| <= |base|
    && (forall j :: 0 <= j < |base| ==> (j < |v| <==> l <= input.Layers(base[j].agg_id)))
    && (forall j :: 0 <= j < |v| ==> v[j] == base[j].(policytc_id := input.Policy(base[j].agg_id, l)))
  }

  ghost predicate Exact(input: LevelInput, prev: seq<PolicyNode>, next: seq<seq<PolicyNode>>, lookup: seq<int>,
                        parent: seq<nat>)
  {
    && |next| >= 2 && |lookup| == input.maxAgg
    && Indexed(next[1], lookup)
    && Holds(input, prev, next[1], parent)
    && AllLayers(input, next)
  }

  ghost predicate AllLayers(input: LevelInput, next: seq<seq<PolicyNode>>)
    requires |next| >= 2
  {
    forall l :: 1 <= l < |next| ==> LayerOf(input, next[1], next[l], l)
  }

  // ---------- when the build is exact ----------

  /** prev[k] is the first to hand items to its aggregate. */
  ghost predicate First(input: LevelInput, prev: seq<PolicyNode>, k: nat)
    requires k < |prev|
  {
    forall i :: 0 <= i < k ==> input.Target(prev[i].agg_id) != input.Target(prev[k].agg_id)
  }

  /** In order of first appearance, no aggregate has more layers than one before it. */
  ghost predicate Shrinking(input: LevelInput, prev: seq<PolicyNode>) {
    forall i, k :: 0 <= i < k < |prev| && First(input, prev, k) ==>
      input.Layers(input.Target(prev[k].agg_id)) <= input.Layers(input.Target(prev[i].agg_id))
  }

  /** Some aggregate is not found where it is. */
  ghost predicate Misplaced(base: seq<PolicyNode>, lookup: seq<int>) {
    exists j :: 0 <= j < |base| && 1 <= base[j].agg_id <= |lookup| && lookup[base[j].agg_id - 1] != j
  }

  /** True of any input: every recorded position is one, in every layer the aggregate has. */
  ghost predicate WellBuilt(input: LevelInput, prev: seq<PolicyNode>, next: seq<seq<PolicyNode>>, lookup: seq<int>) {
    && |next| >= 2 && |lookup| == input.maxAgg
    && (forall l, m :: 1 <= l <= m < |next| ==> |next[l]| >= |next[m]|)
    && (forall a :: 0 <= a < |lookup| && lookup[a] != NONE ==>
          Placed(input, next, lookup, a) && Seen(input, prev, a + 1))
    && (forall i :: 0 <= i < |prev| ==> IsKnown(lookup, input.Target(prev[i].agg_id)))
    && (forall j :: 0 <= j < |next[1]| ==> IsKnown(lookup, next[1][j].agg_id))
  }

  ghost predicate IsKnown(lookup: seq<int>, agg: int) { 1 <= agg <= |lookup| && lookup[agg - 1] != NONE }

  ghost predicate Seen(input: LevelInput, prev: seq<PolicyNode>, agg: int) {
    exists i :: 0 <= i < |prev| && input.Target(prev[i].agg_id) == agg
  }

  /** a is the position of the aggregate with id a + 1 in the lookup. */
  ghost predicate Placed(input: LevelInput, next: seq<seq<PolicyNode>>, lookup: seq<int>, a: int)
    requires 0 <= a < |lookup|
  {
    1 <= input.Layers(a + 1) < |next| && forall l :: 1 <= l <= input.Layers(a + 1) ==> 0 <= lookup[a] < |next[l]|
  }

  // ---------- one more aggregate from the level below ----------

  /** What CreateNode does. */
  ghost predicate Created(input: LevelInput, next0: seq<seq<PolicyNode>>, lookup0: seq<int>, agg: int, items: seq<nat>,
                          next: seq<seq<PolicyNode>>, lookup: seq<int>)
  {
    && 1 <= agg <= |lookup0| && 1 <= input.Layers(agg) < |next0| == |next|
    && (forall l :: 1 <= l <= input.Layers(agg) ==>
          next[l] == next0[l] + [PolicyNode(input.Policy(agg, l), agg, items)])
    && (forall l :: 0 <= l < |next| && !(1 <= l <= input.Layers(agg)) ==> next[l] == next0[l])
    && lookup == lookup0[agg - 1 := |next0[input.Layers(agg)]|]
  }

  /** What AppendItems does. */
  ghost predicate Appended(input: LevelInput, next0: seq<seq<PolicyNode>>, idx: int, agg: int, items: seq<nat>,
                           next: seq<seq<PolicyNode>>)
  {
    && 1 <= input.Layers(agg) < |next0| == |next|
    && (forall l :: 1 <= l <= input.Layers(agg) ==> 0 <= idx < |next0[l]| && next[l] == Joined(next0[l], idx, items))
    && (forall l :: 0 <= l < |next| && !(1 <= l <= input.Layers(agg)) ==> next[l] == next0[l])
  }

  lemma GatherSnoc(prev: seq<PolicyNode>, parent: seq<nat>, p: PolicyNode, q: nat, j: nat)
    requires |prev| == |parent|
    ensures Gather(prev + [p], parent + [q], j) == Gather(prev, parent, j) + if q == j then p.item_idx else []
  {
    assert (prev + [p])[..|prev|] == prev && (parent + [q])[..|prev|] == parent;
  }

  lemma {:induction false} GatherNothing(prev: seq<PolicyNode>, parent: seq<nat>, j: nat)
    requires |prev| == |parent| && j !in parent
    ensures Gather(prev, parent, j) == []
  {
    if prev != [] { GatherNothing(prev[..|prev| - 1], parent[..|prev| - 1], j); }
  }

  lemma CreateWellBuilt(input: LevelInput, prev: seq<PolicyNode>, p: PolicyNode, next0: seq<seq<PolicyNode>>,
                        lookup0: seq<int>, next: seq<seq<PolicyNode>>, lookup: seq<int>)
    requires WellBuilt(input, prev, next0, lookup0)
    requires Created(input, next0, lookup0, input.Target(p.agg_id), p.item_idx, next, lookup)
    ensures WellBuilt(input, prev + [p], next, lookup)
  {
    var agg := input.Target(p.agg_id);
    assert (prev + [p])[|prev|] == p;
    forall a | 0 <= a < |lookup| && lookup[a] != NONE
      ensures Placed(input, next, lookup, a) && Seen(input, prev + [p], a + 1)
    {
      if a != agg - 1 {
        assert Placed(input, next0, lookup0, a);
        var i :| 0 <= i < |prev| && input.Target(prev[i].agg_id) == a + 1;
        assert (prev + [p])[i] == prev[i];
      }
    }
  }

  lemma AppendWellBuilt(input: LevelInput, prev: seq<PolicyNode>, p: PolicyNode, next0: seq<seq<PolicyNode>>,
                        lookup: seq<int>, next: seq<seq<PolicyNode>>)
    requires WellBuilt(input, prev, next0, lookup) && IsKnown(lookup, input.Target(p.agg_id))
    requires Appended(input, next0, lookup[input.Target(p.agg_id) - 1], input.Target(p.agg_id), p.item_idx, next)
    ensures WellBuilt(input, prev + [p], next, lookup)
  {
    forall a | 0 <= a < |lookup| && lookup[a] != NONE
      ensures Placed(input, next, lookup, a) && Seen(input, prev + [p], a + 1)
    {
      assert Placed(input, next0, lookup, a);
      var i :| 0 <= i < |prev| && input.Target(prev[i].agg_id) == a + 1;
      assert (prev + [p])[i] == prev[i];
    }
  }

  lemma CreateExact(input: LevelInput, prev: seq<PolicyNode>, p: PolicyNode, next0: seq<seq<PolicyNode>>,
                    lookup0: seq<int>, parent: seq<nat>, next: seq<seq<PolicyNode>>, lookup: seq<int>)
    requires Exact(input, prev, next0, lookup0, parent)
    requires Created(input, next0, lookup0, input.Target(p.agg_id), p.item_idx, next, lookup)
    requires lookup0[input.Target(p.agg_id) - 1] == NONE
    requires forall j :: 0 <= j < |next0[1]| ==>
               input.Layers(next0[1][j].agg_id) >= input.Layers(input.Target(p.agg_id))
    ensures Exact(input, prev + [p], next, lookup, parent + [|next0[1]|])
  {
    var agg := input.Target(p.agg_id);
    var base0, base := next0[1], next[1];
    assert base == base0 + [PolicyNode(input.Policy(agg, 1), agg, p.item_idx)];
    FullLayer(input, base0, next0[input.Layers(agg)], input.Layers(agg));
    CreateHolds(input, prev, p, base0, input.Policy(agg, 1), parent);
    CreateIndexed(base0, lookup0, base, lookup, agg);
    CreateLayers(input, next0, lookup0, agg, p.item_idx, next, lookup);
  }

  lemma CreateLayers(input: LevelInput, next0: seq<seq<PolicyNode>>, lookup0: seq<int>, agg: int, items: seq<nat>,
                     next: seq<seq<PolicyNode>>, lookup: seq<int>)
    requires |next0| >= 2 && AllLayers(input, next0)
    requires Created(input, next0, lookup0, agg, items, next, lookup)
    requires forall j :: 0 <= j < |next0[1]| ==> input.Layers(next0[1][j].agg_id) >= input.Layers(agg)
    ensures AllLayers(input, next)
  {
    forall l | 1 <= l < |next| ensures LayerOf(input, next[1], next[l], l) {
      LayerCreated(input, next0[1], next0[l], l, agg, items, next[1], next[l]);
    }
  }

  lemma CreateIndexed(base0: seq<PolicyNode>, lookup0: seq<int>, base: seq<PolicyNode>, lookup: seq<int>, agg: int)
    requires Indexed(base0, lookup0) && 1 <= agg <= |lookup0| && lookup0[agg - 1] == NONE
    requires |base| == |base0| + 1 && base[..|base0|] == base0 && base[|base0|].agg_id == agg
    requires lookup == lookup0[agg - 1 := |base0|]
    ensures Indexed(base, lookup)
  {
    forall j | 0 <= j < |base| ensures 1 <= base[j].agg_id <= |lookup| && lookup[base[j].agg_id - 1] == j {
      if j < |base0| { assert base[j] == base0[j]; }
    }
    forall a | 0 <= a < |lookup| && lookup[a] != NONE
      ensures 0 <= lookup[a] < |base| && base[lookup[a]].agg_id == a + 1
    {
      if a != agg - 1 { assert base[lookup0[a]] == base0[lookup0[a]]; }
    }
  }

  /** A layer that every aggregate has is full. */
  lemma FullLayer(input: LevelInput, base: seq<PolicyNode>, v: seq<PolicyNode>, l: int)
    requires LayerOf(input, base, v, l) && forall j :: 0 <= j < |base| ==> l <= input.Layers(base[j].agg_id)
    ensures |v| == |base|
  {
    if base != [] { assert l <= input.Layers(base[|base| - 1].agg_id); }
  }

  lemma LayerCreated(input: LevelInput, base0: seq<PolicyNode>, v0: seq<PolicyNode>, l: int, agg: int, items: seq<nat>,
                     base: seq<PolicyNode>, v: seq<PolicyNode>)
    requires LayerOf(input, base0, v0, l)
    requires forall j :: 0 <= j < |base0| ==> input.Layers(base0[j].agg_id) >= input.Layers(agg)
    requires base == base0 + [PolicyNode(input.Policy(agg, 1), agg, items)]
    requires v == if l <= input.Layers(agg) then v0 + [PolicyNode(input.Policy(agg, l), agg, items)] else v0
    ensures LayerOf(input, base, v, l)
  {
    if l <= input.Layers(agg) { FullLayer(input, base0, v0, l); }
  }

  lemma LayerAppended(input: LevelInput, base0: seq<PolicyNode>, v0: seq<PolicyNode>, l: int, idx: nat, items: seq<nat>,
                      base: seq<PolicyNode>, v: seq<PolicyNode>)
    requires LayerOf(input, base0, v0, l) && idx < |base0|
    requires base == Joined(base0, idx, items)
    requires v == if idx < |v0| then Joined(v0, idx, items) else v0
    ensures LayerOf(input, base, v, l)
  {}

  lemma CreateHolds(input: LevelInput, prev: seq<PolicyNode>, p: PolicyNode, base0: seq<PolicyNode>,
                    policy: int, parent: seq<nat>)
    requires Holds(input, prev, base0, parent)
    ensures Holds(input, prev + [p], base0 + [PolicyNode(policy, input.Target(p.agg_id), p.item_idx)],
                  parent + [|base0|])
  {
    var base := base0 + [PolicyNode(policy, input.Target(p.agg_id), p.item_idx)];
    forall j | 0 <= j < |base|
      ensures base[j].item_idx == Gather(prev + [p], parent + [|base0|], j) && j in parent + [|base0|]
    {
      GatherSnoc(prev, parent, p, |base0|, j);
      if j == |base0| { GatherNothing(prev, parent, j); }
    }
  }

  lemma AppendExact(input: LevelInput, prev: seq<PolicyNode>, p: PolicyNode, next0: seq<seq<PolicyNode>>,
                    lookup: seq<int>, parent: seq<nat>, next: seq<seq<PolicyNode>>, idx: int)
    requires Exact(input, prev, next0, lookup, parent)
    requires Appended(input, next0, idx, input.Target(p.agg_id), p.item_idx, next)
    requires IsKnown(lookup, input.Target(p.agg_id)) && idx == lookup[input.Target(p.agg_id) - 1]
    ensures 0 <= idx && Exact(input, prev + [p], next, lookup, parent + [idx])
  {
    AppendHolds(input, prev, p, next0[1], parent, idx);
    assert next[1] == Joined(next0[1], idx, p.item_idx);
    AppendIndexed(next0[1], lookup, idx, p.item_idx);
    AppendLayers(input, next0, idx, input.Target(p.agg_id), p.item_idx, next);
  }

  lemma AppendIndexed(base: seq<PolicyNode>, lookup: seq<int>, idx: nat, items: seq<nat>)
    requires Indexed(base, lookup) && idx < |base|
    ensures Indexed(Joined(base, idx, items), lookup)
  {}

  lemma AppendLayers(input: LevelInput, next0: seq<seq<PolicyNode>>, idx: int, agg: int, items: seq<nat>,
                     next: seq<seq<PolicyNode>>)
    requires |next0| >= 2 && AllLayers(input, next0) && Appended(input, next0, idx, agg, items, next)
    requires 0 <= idx < |next0[1]| && next0[1][idx].agg_id == agg
    ensures AllLayers(input, next)
  {
    forall l | 1 <= l < |next| ensures LayerOf(input, next[1], next[l], l) {
      LayerAppended(input, next0[1], next0[l], l, idx, items, next[1], next[l]);
    }
  }

  lemma AppendHolds(input: LevelInput, prev: seq<PolicyNode>, p: PolicyNode, base0: seq<PolicyNode>,
                    parent: seq<nat>, idx: nat)
    requires Holds(input, prev, base0, parent) && idx < |base0| && base0[idx].agg_id == input.Target(p.agg_id)
    ensures Holds(input, prev + [p], Joined(base0, idx, p.item_idx), parent + [idx])
  {
    forall j | 0 <= j < |base0|
      ensures Joined(base0, idx, p.item_idx)[j].item_idx == Gather(prev + [p], parent + [idx], j) && j in parent + [idx]
    {
      GatherSnoc(prev, parent, p, idx, j);
    }
  }

  // ---------- exact or misplaced ----------

  lemma MisplacedStays(input: LevelInput, prev: seq<PolicyNode>, next0: seq<seq<PolicyNode>>, lookup0: seq<int>,
                       agg: int, items: seq<nat>, next: seq<seq<PolicyNode>>, lookup: seq<int>)
    requires WellBuilt(input, prev, next0, lookup0) && Misplaced(next0[1], lookup0)
    requires Created(input, next0, lookup0, agg, items, next, lookup) && lookup0[agg - 1] == NONE
    ensures Misplaced(next[1], lookup)
  {
    var j :| 0 <= j < |next0[1]| && 1 <= next0[1][j].agg_id <= |lookup0| && lookup0[next0[1][j].agg_id - 1] != j;
    assert IsKnown(lookup0, next0[1][j].agg_id);
    assert next[1][j] == next0[1][j];
  }

  lemma MisplacedKept(input: LevelInput, next0: seq<seq<PolicyNode>>, lookup: seq<int>, idx: int, agg: int,
                      items: seq<nat>, next: seq<seq<PolicyNode>>)
    requires |next0| >= 2 && Misplaced(next0[1], lookup) && Appended(input, next0, idx, agg, items, next)
    ensures Misplaced(next[1], lookup)
  {
    var j :| 0 <= j < |next0[1]| && 1 <= next0[1][j].agg_id <= |lookup| && lookup[next0[1][j].agg_id - 1] != j;
    assert next[1][j].agg_id == next0[1][j].agg_id;
  }

  /** A new aggregate with more layers than an earlier one is recorded at the wrong position. */
  lemma CreateMisplaces(input: LevelInput, prev: seq<PolicyNode>, p: PolicyNode, next0: seq<seq<PolicyNode>>,
                        lookup0: seq<int>, parent: seq<nat>, next: seq<seq<PolicyNode>>, lookup: seq<int>, i: nat)
    requires Exact(input, prev, next0, lookup0, parent)
    requires Created(input, next0, lookup0, input.Target(p.agg_id), p.item_idx, next, lookup)
    requires i < |prev| && input.Layers(input.Target(prev[i].agg_id)) < input.Layers(input.Target(p.agg_id))
    ensures Misplaced(next[1], lookup)
  {
    var agg, n := input.Target(p.agg_id), |next0[1]|;
    var c := input.Layers(agg);
    assert LayerOf(input, next0[1], next0[c], c);
    assert |next0[c]| <= parent[i] < n;
    assert next[1][n].agg_id == agg && lookup[agg - 1] == |next0[c]|;
  }

  lemma ShrinkingSnoc(input: LevelInput, prev: seq<PolicyNode>, p: PolicyNode)
    ensures Shrinking(input, prev + [p]) <==>
              Shrinking(input, prev)
              && (Seen(input, prev, input.Target(p.agg_id)) || forall i :: 0 <= i < |prev| ==>
                    input.Layers(input.Target(p.agg_id)) <= input.Layers(input.Target(prev[i].agg_id)))
  {
    var all, n := prev + [p], |prev|;
    assert forall k :: 0 <= k < n ==> all[k] == prev[k];
    assert forall k :: 0 <= k < n ==> (First(input, all, k) <==> First(input, prev, k));
    assert First(input, all, n) <==> !Seen(input, prev, input.Target(p.agg_id));
    if Shrinking(input, all) {
      forall i, k | 0 <= i < k < n && First(input, prev, k)
        ensures input.Layers(input.Target(prev[k].agg_id)) <= input.Layers(input.Target(prev[i].agg_id))
      {
        assert First(input, all, k);
        assert all[i] == prev[i] && all[k] == prev[k];
      }
      if First(input, all, n) {
        forall i | 0 <= i < n
          ensures input.Layers(input.Target(p.agg_id)) <= input.Layers(input.Target(prev[i].agg_id))
        {
          assert all[i] == prev[i] && all[n] == p;
        }
      }
    }
  }

  // ---------- the build ----------

  /** Everything the loop over the aggregates of the level below keeps. */
  ghost predicate State(input: LevelInput, prev: seq<PolicyNode>, next: seq<seq<PolicyNode>>, lookup: seq<int>,
                        parent: seq<nat>)
  {
    && WellBuilt(input, prev, next, lookup)
    && (Shrinking(input, prev) ==> Exact(input, prev, next, lookup, parent))
    && (!Shrinking(input, prev) ==> Misplaced(next[1], lookup))
  }

  lemma StateEmpty(input: LevelInput, next: seq<seq<PolicyNode>>, lookup: seq<int>)
    requires |next| >= 2 && |lookup| == input.maxAgg
    requires forall l :: 0 <= l < |next| ==> next[l] == []
    requires forall a :: 0 <= a < |lookup| ==> lookup[a] == NONE
    ensures State(input, [], next, lookup, [])
  {}

  lemma StateCreate(input: LevelInput, prev: seq<PolicyNode>, p: PolicyNode, next0: seq<seq<PolicyNode>>,
                    lookup0: seq<int>, parent: seq<nat>, next: seq<seq<PolicyNode>>, lookup: seq<int>)
    requires State(input, prev, next0, lookup0, parent)
    requires Created(input, next0, lookup0, input.Target(p.agg_id), p.item_idx, next, lookup)
    requires lookup0[input.Target(p.agg_id) - 1] == NONE
    ensures State(input, prev + [p], next, lookup, parent + [|next0[1]|])
  {
    var agg := input.Target(p.agg_id);
    CreateWellBuilt(input, prev, p, next0, lookup0, next, lookup);
    NotSeen(input, prev, next0, lookup0, agg);
    ShrinkingSnoc(input, prev, p);
    if Shrinking(input, prev + [p]) {
      EarlierLayers(input, prev, next0[1], parent, input.Layers(agg));
      CreateExact(input, prev, p, next0, lookup0, parent, next, lookup);
    } else if Shrinking(input, prev) {
      var i :| 0 <= i < |prev| && input.Layers(input.Target(prev[i].agg_id)) < input.Layers(agg);
      CreateMisplaces(input, prev, p, next0, lookup0, parent, next, lookup, i);
    } else {
      MisplacedStays(input, prev, next0, lookup0, agg, p.item_idx, next, lookup);
    }
  }

  lemma NotSeen(input: LevelInput, prev: seq<PolicyNode>, next: seq<seq<PolicyNode>>, lookup: seq<int>, agg: int)
    requires WellBuilt(input, prev, next, lookup) && 1 <= agg <= |lookup| && lookup[agg - 1] == NONE
    ensures !Seen(input, prev, agg)
  {
    forall i | 0 <= i < |prev| ensures input.Target(prev[i].agg_id) != agg {
      assert IsKnown(lookup, input.Target(prev[i].agg_id));
    }
  }

  lemma StateAppend(input: LevelInput, prev: seq<PolicyNode>, p: PolicyNode, next0: seq<seq<PolicyNode>>,
                    lookup: seq<int>, parent: seq<nat>, next: seq<seq<PolicyNode>>, idx: nat)
    requires State(input, prev, next0, lookup, parent)
    requires IsKnown(lookup, input.Target(p.agg_id)) && idx == lookup[input.Target(p.agg_id) - 1]
    requires Appended(input, next0, idx, input.Target(p.agg_id), p.item_idx, next)
    ensures State(input, prev + [p], next, lookup, parent + [idx])
  {
    var agg := input.Target(p.agg_id);
    AppendWellBuilt(input, prev, p, next0, lookup, next);
    ShrinkingSnoc(input, prev, p);
    assert Seen(input, prev, (agg - 1) + 1);
    if Shrinking(input, prev) {
      AppendExact(input, prev, p, next0, lookup, parent, next, idx);
    } else {
      MisplacedKept(input, next0, lookup, idx, agg, p.item_idx, next);
    }
  }

  lemma EarlierLayers(input: LevelInput, prev: seq<PolicyNode>, base: seq<PolicyNode>, parent: seq<nat>, c: int)
    requires Holds(input, prev, base, parent)
    requires forall i :: 0 <= i < |prev| ==> c <= input.Layers(input.Target(prev[i].agg_id))
    ensures forall j :: 0 <= j < |base| ==> input.Layers(base[j].agg_id) >= c
  {
    forall j | 0 <= j < |base| ensures input.Layers(base[j].agg_id) >= c {
      assert j in parent;
      var i :| 0 <= i < |parent| && parent[i] == j;
      assert base[parent[i]].agg_id == input.Target(prev[i].agg_id);
    }
  }

  lemma CanAppend(input: LevelInput, prev: seq<PolicyNode>, next: seq<seq<PolicyNode>>, lookup: seq<int>,
                  agg: int)
    requires WellBuilt(input, prev, next, lookup) && IsKnown(lookup, agg)
    ensures lookup[agg - 1] >= 0
    ensures forall l :: 1 <= l <= input.Layers(agg) < |next| ==> 0 <= lookup[agg - 1] < |next[l]|
  {
    assert Placed(input, next, lookup, agg - 1);
    assert lookup[agg - 1] < |next[1]|;
  }

  /** The body of the loop over the aggregates of the level below. */
  method AddAggregate(input: LevelInput, ghost prev: seq<PolicyNode>, p: PolicyNode, next0: seq<seq<PolicyNode>>,
                      lookup0: seq<int>, ghost parent0: seq<nat>)
      returns (next: seq<seq<PolicyNode>>, lookup: seq<int>, ghost parent: seq<nat>)
    requires State(input, prev, next0, lookup0, parent0)
    requires 1 <= input.Target(p.agg_id) <= input.maxAgg && 1 <= input.Layers(input.Target(p.agg_id)) < |next0|
    ensures |next| == |next0| && State(input, prev + [p], next, lookup, parent)
  {
    var agg := input.Target(p.agg_id);
    var current_idx := lookup0[agg - 1];
    if current_idx == NONE {
      next, lookup := CreateNode(input, next0, lookup0, agg, p.item_idx);
      StateCreate(input, prev, p, next0, lookup0, parent0, next, lookup);
      parent := parent0 + [|next0[1]|];
    } else {
      CanAppend(input, prev, next0, lookup0, agg);
      lookup := lookup0;
      next := AppendItems(input, next0, current_idx, agg, p.item_idx);
      StateAppend(input, prev, p, next0, lookup0, parent0, next, current_idx);
      parent := parent0 + [current_idx];
    }
  }

  /**
    One level of the hierarchy, from the aggregates of the level below. Whatever the layers
    are, every recorded position is one. The result is exact if and only if no aggregate has
    more layers than one that appeared before it; otherwise some aggregate is misplaced.
  */
  method BuildLevel(input: LevelInput, prev: seq<PolicyNode>, maxLayer: nat)
      returns (next: seq<seq<PolicyNode>>, lookup: seq<int>, ghost parent: seq<nat>)
    requires maxLayer >= 1 && InputFits(input, prev, maxLayer)
    ensures |next| == maxLayer + 1 && WellBuilt(input, prev, next, lookup)
    ensures Shrinking(input, prev) ==> Exact(input, prev, next, lookup, parent)
    ensures !Shrinking(input, prev) ==> Misplaced(next[1], lookup)
  {
    next, lookup, parent := seq(maxLayer + 1, _ => []), seq(input.maxAgg, _ => NONE), [];
    StateEmpty(input, next, lookup);
    for i := 0 to |prev|
      invariant |next| == maxLayer + 1 && State(input, prev[..i], next, lookup, parent)
    {
      assert prev[..i + 1] == prev[..i] + [prev[i]];
      next, lookup, parent := AddAggregate(input, prev[..i], prev[i], next, lookup, parent);
    }
    assert prev[..|prev|] == prev;
  }

  /** The two outcomes exclude each other, so the condition is necessary. */
  lemma ExactIsNotMisplaced(input: LevelInput, prev: seq<PolicyNode>, next: seq<seq<PolicyNode>>, lookup: seq<int>,
                            parent: seq<nat>)
    requires Exact(input, prev, next, lookup, parent)
    ensures !Misplaced(next[1], lookup)
  {}

  // ---------- the items of an event ----------

  /** Every item is below exactly one aggregate, and that aggregate lists it once. */
  ghost predicate Partitions(nodes: seq<PolicyNode>, owner: seq<nat>) {
    && (forall x :: 0 <= x < |owner| ==> owner[x] < |nodes|)
    && (forall j :: 0 <= j < |nodes| ==> Lists(nodes[j].item_idx, owner, j))
  }

  /** The items gathered for j from the first n aggregates of the level below. */
  ghost predicate GatheredFrom(at: seq<nat>, owner: seq<nat>, parent: seq<nat>, n: nat, j: nat) {
    && Distinct(at)
    && (forall t :: 0 <= t < |at| ==>
          at[t] < |owner| && owner[at[t]] < n && owner[at[t]] < |parent| && parent[owner[at[t]]] == j)
    && (forall x :: 0 <= x < |owner| && owner[x] < n && owner[x] < |parent| && parent[owner[x]] == j ==> x in at)
  }

  lemma {:induction false} GatherCollects(prev: seq<PolicyNode>, parent: seq<nat>, owner: seq<nat>, n: nat, j: nat)
    requires |prev| == |parent| && Partitions(prev, owner) && n <= |prev|
    ensures GatheredFrom(Gather(prev[..n], parent[..n], j), owner, parent, n, j)
  {
    if n > 0 {
      GatherCollects(prev, parent, owner, n - 1, j);
      var m := n - 1;
      assert prev[..n][..m] == prev[..m] && parent[..n][..m] == parent[..m];
      var before, more := Gather(prev[..m], parent[..m], j), prev[m].item_idx;
      assert Lists(more, owner, m);
      if parent[m] == j { GatherJoin(before, more, owner, parent, m, j); }
    }
  }

  lemma GatherJoin(before: seq<nat>, more: seq<nat>, owner: seq<nat>, parent: seq<nat>, m: nat, j: nat)
    requires GatheredFrom(before, owner, parent, m, j) && Lists(more, owner, m)
    requires m < |parent| && parent[m] == j
    ensures GatheredFrom(before + more, owner, parent, m + 1, j)
  {
    var at := before + more;
    forall t, u | 0 <= t < u < |at| ensures at[t] != at[u] {
      if t < |before| <= u { assert owner[at[t]] < m && owner[at[u]] == m; }
    }
  }

  function Above(owner: seq<nat>, parent: seq<nat>): (top: seq<nat>)
    requires forall x :: 0 <= x < |owner| ==> owner[x] < |parent|
    ensures |top| == |owner| && forall x :: 0 <= x < |owner| ==> top[x] == parent[owner[x]]
  {
    seq(|owner|, x requires 0 <= x < |owner| && owner[x] < |parent| => parent[owner[x]])
  }

  /** A partition of the items below is carried up to a partition of the items above. */
  lemma PartitionUp(input: LevelInput, prev: seq<PolicyNode>, base: seq<PolicyNode>, parent: seq<nat>, owner: seq<nat>)
    requires Holds(input, prev, base, parent) && Partitions(prev, owner)
    ensures Partitions(base, Above(owner, parent))
  {
    var top := Above(owner, parent);
    forall j | 0 <= j < |base| ensures Lists(base[j].item_idx, top, j) {
      GatherCollects(prev, parent, owner, |prev|, j);
      assert prev[..|prev|] == prev && parent[..|parent|] == parent;
    }
  }

  // ---------- all levels ----------

  /** The aggregate an item belongs to after so many levels; before the first, the item itself. */
  function AggOf(inputs: seq<LevelInput>, depth: nat, item: int): int
    requires depth <= |inputs|
  {
    if depth == 0 then item else inputs[depth - 1].Target(AggOf(inputs, depth - 1, item))
  }

  /** Every item of the event has an aggregate at every level, with at least one layer. */
  ghost predicate ProgrammeFits(inputs: seq<LevelInput>, items: seq<int>, maxLayer: nat) {
    forall depth, x :: 1 <= depth <= |inputs| && 0 <= x < |items| ==>
      var a := AggOf(inputs, depth, items[x]);
      1 <= a <= inputs[depth - 1].maxAgg && 1 <= inputs[depth - 1].Layers(a) <= maxLayer
  }

  /** At every level all aggregates of the event have the same number of layers. */
  ghost predicate Uniform(inputs: seq<LevelInput>, items: seq<int>) {
    forall depth, x, y :: 1 <= depth <= |inputs| && 0 <= x < |items| && 0 <= y < |items| ==>
      inputs[depth - 1].Layers(AggOf(inputs, depth, items[x]))
      == inputs[depth - 1].Layers(AggOf(inputs, depth, items[y]))
  }

  /** The items themselves, as the aggregates below level 0. */
  function Singles(items: seq<int>): (r: seq<PolicyNode>)
    ensures |r| == |items| && forall x :: 0 <= x < |items| ==> r[x] == PolicyNode(0, items[x], [x])
  {
    seq(|items|, x requires 0 <= x < |items| => PolicyNode(0, items[x], [x]))
  }

  function Identity(n: nat): (r: seq<nat>)
    ensures |r| == n && forall x :: 0 <= x < n ==> r[x] == x
  {
    seq(n, x => x)
  }

  /** a is the aggregate of some item of the event. */
  ghost predicate Reaches(inputs: seq<LevelInput>, depth: nat, a: int, items: seq<int>)
    requires depth <= |inputs|
  {
    exists x :: 0 <= x < |items| && a == AggOf(inputs, depth, items[x])
  }

  ghost predicate Reached(inputs: seq<LevelInput>, depth: nat, nodes: seq<PolicyNode>, items: seq<int>)
    requires depth <= |inputs|
  {
    forall j :: 0 <= j < |nodes| ==> Reaches(inputs, depth, nodes[j].agg_id, items)
  }

  /** The items' owners are their aggregates. */
  ghost predicate OwnersAre(inputs: seq<LevelInput>, depth: nat, nodes: seq<PolicyNode>, owner: seq<nat>,
                            items: seq<int>)
    requires depth <= |inputs|
  {
    |owner| == |items| && forall x :: 0 <= x < |items| ==>
      owner[x] < |nodes| && nodes[owner[x]].agg_id == AggOf(inputs, depth, items[x])
  }

  lemma ReachesUp(inputs: seq<LevelInput>, level: nat, a: int, items: seq<int>)
    requires level < |inputs| && Reaches(inputs, level, a, items)
    ensures Reaches(inputs, level + 1, inputs[level].Target(a), items)
  {
    var x :| 0 <= x < |items| && a == AggOf(inputs, level, items[x]);
    assert AggOf(inputs, level + 1, items[x]) == inputs[level].Target(a);
  }

  lemma ReachedFits(inputs: seq<LevelInput>, level: nat, prev: seq<PolicyNode>, items: seq<int>, maxLayer: nat)
    requires level < |inputs| && ProgrammeFits(inputs, items, maxLayer) && Reached(inputs, level, prev, items)
    ensures InputFits(inputs[level], prev, maxLayer)
  {
    forall i | 0 <= i < |prev|
      ensures 1 <= inputs[level].Target(prev[i].agg_id) <= inputs[level].maxAgg
              && 1 <= inputs[level].Layers(inputs[level].Target(prev[i].agg_id)) <= maxLayer
    {
      ReachesUp(inputs, level, prev[i].agg_id, items);
    }
  }

  lemma UniformShrinks(inputs: seq<LevelInput>, level: nat, prev: seq<PolicyNode>, items: seq<int>)
    requires level < |inputs| && Uniform(inputs, items) && Reached(inputs, level, prev, items)
    ensures Shrinking(inputs[level], prev)
  {
    forall i, k | 0 <= i < k < |prev|
      ensures inputs[level].Layers(inputs[level].Target(prev[k].agg_id))
              <= inputs[level].Layers(inputs[level].Target(prev[i].agg_id))
    {
      ReachesUp(inputs, level, prev[i].agg_id, items);
      ReachesUp(inputs, level, prev[k].agg_id, items);
    }
  }

  lemma BuiltReached(inputs: seq<LevelInput>, level: nat, prev: seq<PolicyNode>, next: seq<seq<PolicyNode>>,
                     lookup: seq<int>, items: seq<int>)
    requires level < |inputs| && Reached(inputs, level, prev, items)
    requires WellBuilt(inputs[level], prev, next, lookup)
    ensures Reached(inputs, level + 1, next[1], items)
  {
    forall j | 0 <= j < |next[1]| ensures Reaches(inputs, level + 1, next[1][j].agg_id, items) {
      var a := next[1][j].agg_id;
      assert IsKnown(lookup, a);
      assert Seen(inputs[level], prev, (a - 1) + 1);
      var i :| 0 <= i < |prev| && inputs[level].Target(prev[i].agg_id) == a;
      ReachesUp(inputs, level, prev[i].agg_id, items);
    }
  }

  lemma OwnersUp(inputs: seq<LevelInput>, level: nat, prev: seq<PolicyNode>, base: seq<PolicyNode>, parent: seq<nat>,
                 owner: seq<nat>, items: seq<int>)
    requires level < |inputs| && Holds(inputs[level], prev, base, parent)
    requires OwnersAre(inputs, level, prev, owner, items)
    ensures OwnersAre(inputs, level + 1, base, Above(owner, parent), items)
  {
    var top := Above(owner, parent);
    forall x | 0 <= x < |items|
      ensures top[x] < |base| && base[top[x]].agg_id == AggOf(inputs, level + 1, items[x])
    {
      var i := owner[x];
      assert top[x] == parent[i] && base[parent[i]].agg_id == inputs[level].Target(prev[i].agg_id);
    }
  }

  /** What dofm has built for one level. */
  datatype Level = Level(nodes: seq<seq<PolicyNode>>, lookup: seq<int>)

  /**
    A level is right: positions line up over the layers, the lookup finds every aggregate,
    the aggregates are those of the items, and their item lists partition the items of the
    event by their aggregate.
  */
  ghost predicate LevelRight(inputs: seq<LevelInput>, level: nat, prev: seq<PolicyNode>, built: Level,
                             parent: seq<nat>, owner: seq<nat>, items: seq<int>)
    requires level < |inputs|
  {
    && Exact(inputs[level], prev, built.nodes, built.lookup, parent)
    && Partitions(built.nodes[1], owner)
    && OwnersAre(inputs, level + 1, built.nodes[1], owner, items)
    && Reached(inputs, level + 1, built.nodes[1], items)
  }

  lemma LevelUp(inputs: seq<LevelInput>, level: nat, prev: seq<PolicyNode>, built: Level, parent: seq<nat>,
                owner: seq<nat>, items: seq<int>)
    requires level < |inputs| && Exact(inputs[level], prev, built.nodes, built.lookup, parent)
    requires Partitions(prev, owner) && OwnersAre(inputs, level, prev, owner, items)
    requires Reached(inputs, level + 1, built.nodes[1], items)
    ensures forall x :: 0 <= x < |owner| ==> owner[x] < |parent|
    ensures LevelRight(inputs, level, prev, built, parent, Above(owner, parent), items)
  {
    PartitionUp(inputs[level], prev, built.nodes[1], parent, owner);
    OwnersUp(inputs, level, prev, built.nodes[1], parent, owner, items);
  }

  /** The aggregates below a level. */
  function Below(items: seq<int>, levels: seq<Level>, level: nat): seq<PolicyNode>
    requires level <= |levels| && forall m :: 0 <= m < |levels| ==> |levels[m].nodes| >= 2
  {
    if level == 0 then Singles(items) else levels[level - 1].nodes[1]
  }

  /** The next level up, and who owns what there. */
  method AddLevel(inputs: seq<LevelInput>, level: nat, prev: seq<PolicyNode>, items: seq<int>, maxLayer: nat,
                  ghost owner0: seq<nat>)
      returns (built: Level, ghost parent: seq<nat>, ghost owner: seq<nat>)
    requires level < |inputs| && maxLayer >= 1 && ProgrammeFits(inputs, items, maxLayer)
    requires Reached(inputs, level, prev, items)
    ensures |built.nodes| == maxLayer + 1 && Reached(inputs, level + 1, built.nodes[1], items)
    ensures Uniform(inputs, items) && Partitions(prev, owner0) && OwnersAre(inputs, level, prev, owner0, items) ==>
              LevelRight(inputs, level, prev, built, parent, owner, items)
  {
    ReachedFits(inputs, level, prev, items, maxLayer);
    var next, lookup;
    next, lookup, parent := BuildLevel(inputs[level], prev, maxLayer);
    BuiltReached(inputs, level, prev, next, lookup, items);
    built, owner := Level(next, lookup), [];
    if Uniform(inputs, items) {
      UniformShrinks(inputs, level, prev, items);
      if Partitions(prev, owner0) && OwnersAre(inputs, level, prev, owner0, items) {
        LevelUp(inputs, level, prev, built, parent, owner0, items);
        owner := Above(owner0, parent);
      }
    }
  }

  /** Level m is right, on top of the levels below it. */
  ghost predicate RightAt(inputs: seq<LevelInput>, items: seq<int>, levels: seq<Level>, parents: seq<seq<nat>>,
                          owners: seq<seq<nat>>, m: nat)
  {
    && m < |levels| == |parents| == |owners| <= |inputs|
    && (forall i :: 0 <= i < |levels| ==> |levels[i].nodes| >= 2)
    && LevelRight(inputs, m, Below(items, levels, m), levels[m], parents[m], owners[m], items)
  }

  ghost predicate AllRight(inputs: seq<LevelInput>, items: seq<int>, levels: seq<Level>, parents: seq<seq<nat>>,
                           owners: seq<seq<nat>>)
  {
    && |levels| == |parents| == |owners|
    && forall m :: 0 <= m < |levels| ==> RightAt(inputs, items, levels, parents, owners, m)
  }

  lemma RightStays(inputs: seq<LevelInput>, items: seq<int>, levels: seq<Level>, parents: seq<seq<nat>>,
                   owners: seq<seq<nat>>, built: Level, parent: seq<nat>, owner: seq<nat>, m: nat)
    requires RightAt(inputs, items, levels, parents, owners, m) && |levels| < |inputs| && |built.nodes| >= 2
    ensures RightAt(inputs, items, levels + [built], parents + [parent], owners + [owner], m)
  {
    var longer := levels + [built];
    assert forall i :: 0 <= i < |longer| ==> |longer[i].nodes| >= 2;
    assert Below(items, longer, m) == Below(items, levels, m);
    assert longer[m] == levels[m];
  }

  lemma RightAtTop(inputs: seq<LevelInput>, items: seq<int>, levels: seq<Level>, parents: seq<seq<nat>>,
                   owners: seq<seq<nat>>, prev: seq<PolicyNode>, built: Level, parent: seq<nat>, owner: seq<nat>)
    requires |levels| == |parents| == |owners| < |inputs| && |built.nodes| >= 2
    requires forall i :: 0 <= i < |levels| ==> |levels[i].nodes| >= 2
    requires prev == Below(items, levels, |levels|)
    requires LevelRight(inputs, |levels|, prev, built, parent, owner, items)
    ensures RightAt(inputs, items, levels + [built], parents + [parent], owners + [owner], |levels|)
  {
    var longer := levels + [built];
    assert forall i :: 0 <= i < |longer| ==> |longer[i].nodes| >= 2;
    assert Below(items, longer, |levels|) == prev;
  }

  lemma AllRightSnoc(inputs: seq<LevelInput>, items: seq<int>, levels: seq<Level>, parents: seq<seq<nat>>,
                     owners: seq<seq<nat>>, prev: seq<PolicyNode>, built: Level, parent: seq<nat>, owner: seq<nat>)
    requires AllRight(inputs, items, levels, parents, owners) && |levels| < |inputs| && |built.nodes| >= 2
    requires forall i :: 0 <= i < |levels| ==> |levels[i].nodes| >= 2
    requires prev == Below(items, levels, |levels|)
    requires LevelRight(inputs, |levels|, prev, built, parent, owner, items)
    ensures AllRight(inputs, items, levels + [built], parents + [parent], owners + [owner])
  {
    RightAtTop(inputs, items, levels, parents, owners, prev, built, parent, owner);
    forall m: nat | m < |levels|
      ensures RightAt(inputs, items, levels + [built], parents + [parent], owners + [owner], m)
    {
      RightStays(inputs, items, levels, parents, owners, built, parent, owner, m);
    }
  }

  /** The whole hierarchy: uniform layers make every level right. */
  method BuildHierarchy(inputs: seq<LevelInput>, items: seq<int>, maxLayer: nat)
      returns (levels: seq<Level>, ghost parents: seq<seq<nat>>, ghost owners: seq<seq<nat>>)
    requires maxLayer >= 1 && ProgrammeFits(inputs, items, maxLayer)
    ensures |levels| == |inputs| && forall m :: 0 <= m < |levels| ==> |levels[m].nodes| == maxLayer + 1
    ensures Uniform(inputs, items) ==> AllRight(inputs, items, levels, parents, owners)
  {
    levels, parents, owners := [], [], [];
    var prev := Singles(items);
    ghost var owner := Identity(|items|);
    ItemsStart(inputs, items);
    for level := 0 to |inputs|
      invariant |levels| == level && forall m :: 0 <= m < level ==> |levels[m].nodes| == maxLayer + 1
      invariant prev == Below(items, levels, level) && Reached(inputs, level, prev, items)
      invariant Uniform(inputs, items) ==> Partitions(prev, owner) && OwnersAre(inputs, level, prev, owner, items)
      invariant Uniform(inputs, items) ==> AllRight(inputs, items, levels, parents, owners)
    {
      var built;
      ghost var parent;
      built, parent, owner := AddLevel(inputs, level, prev, items, maxLayer, owner);
      if Uniform(inputs, items) {
        AllRightSnoc(inputs, items, levels, parents, owners, prev, built, parent, owner);
      }
      levels, parents, owners := levels + [built], parents + [parent], owners + [owner];
      prev := built.nodes[1];
    }
  }

  lemma ItemsStart(inputs: seq<LevelInput>, items: seq<int>)
    ensures Reached(inputs, 0, Singles(items), items)
    ensures Partitions(Singles(items), Identity(|items|))
    ensures OwnersAre(inputs, 0, Singles(items), Identity(|items|), items)
  {
    forall x | 0 <= x < |items| ensures Lists(Singles(items)[x].item_idx, Identity(|items|), x) {}
    forall x | 0 <= x < |items| ensures Reaches(inputs, 0, Singles(items)[x].agg_id, items) {
      assert AggOf(inputs, 0, items[x]) == items[x];
    }
  }
}
