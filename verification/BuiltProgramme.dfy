/** What dofm builds fits what dofmcalc_r needs, and what that leaves fits what back allocation needs. */
module BuiltProgramme {
  import opened FinancialStructs
  import opened RealSums
  import OutputRecords
  import BackAllocation
  import opened Hierarchy
  import opened FinancialModel

  /** Every aggregate of the event has the layers of its level, and each of them a profile. */
  ghost predicate PoliciesFit(s: Setup, items: seq<int>) {
    && |s.layers| == |s.inputs|
    && forall l, x :: 0 <= l < |s.inputs| && 0 <= x < |items| ==>
         ItemFits(s, l, items[x])
  }

  /** The aggregate an item has at level l is well supplied. */
  ghost predicate ItemFits(s: Setup, l: nat, item: int)
    requires l < |s.inputs| == |s.layers|
  {
    AggFits(s, l, AggOf(s.inputs, l + 1, item))
  }

  ghost predicate AggFits(s: Setup, l: nat, agg: int)
    requires l < |s.inputs| == |s.layers|
  {
    && s.inputs[l].Layers(agg) == s.layers[l]
    && forall k :: 1 <= k <= s.layers[l] ==>
         s.inputs[l].Policy(agg, k) != 0 && s.inputs[l].Policy(agg, k) < |s.profiles|
  }

  lemma ReachedAggFits(s: Setup, items: seq<int>, l: nat, agg: int)
    requires PoliciesFit(s, items) && l < |s.inputs| && Reaches(s.inputs, l + 1, agg, items)
    ensures AggFits(s, l, agg)
  {
    var x :| 0 <= x < |items| && agg == AggOf(s.inputs, l + 1, items[x]);
    assert ItemFits(s, l, items[x]);
  }

  lemma {:induction false} Pigeonhole(s: seq<int>, n: nat)
    requires forall j :: 0 <= j < n ==> j in s
    ensures n <= |s|
  {
    if n > 0 {
      assert n - 1 in s;
      var a :| 0 <= a < |s| && s[a] == n - 1;
      var rest := s[..a] + s[a + 1..];
      forall j | 0 <= j < n - 1 ensures j in rest {
        assert j in s;
        var b :| 0 <= b < |s| && s[b] == j;
        if b < a { assert rest[b] == j; } else { assert rest[b - 1] == j; }
      }
      Pigeonhole(rest, n - 1);
    }
  }

  lemma IndexedWidth(base: seq<PolicyNode>, lookup: seq<int>)
    requires Indexed(base, lookup)
    ensures |base| <= |lookup|
  {
    forall j | 0 <= j < |base| ensures j in lookup {
      assert lookup[base[j].agg_id - 1] == j;
    }
    Pigeonhole(lookup, |base|);
  }

  lemma BuiltLayer(s: Setup, items: seq<int>, l: nat, k: nat, base: seq<PolicyNode>)
    requires PoliciesFit(s, items) && l < |s.inputs| == |s.levels| && 1 <= k < |s.levels[l].nodes|
    requires base == s.levels[l].nodes[1] && Reached(s.inputs, l + 1, base, items)
    requires LayerOf(s.inputs[l], base, s.levels[l].nodes[k], k)
    requires forall j :: 0 <= j < |base| ==> base[j].agg_id >= 1
    ensures LayerFits(s, l, k)
  {
    forall j | 0 <= j < |base| ensures AggFits(s, l, base[j].agg_id) {
      ReachedAggFits(s, items, l, base[j].agg_id);
    }
    var v := s.levels[l].nodes[k];
    if k <= s.layers[l] {
      if base != [] { assert |base| - 1 < |v| <==> k <= s.inputs[l].Layers(base[|base| - 1].agg_id); }
    } else {
      if base != [] { assert 0 < |v| <==> k <= s.inputs[l].Layers(base[0].agg_id); }
    }
  }

  lemma BuiltLink(s: Setup, items: seq<int>, l: nat, parent: seq<nat>)
    requires PoliciesFit(s, items) && 1 <= l < |s.inputs| == |s.levels|
    requires |s.levels[l - 1].nodes| >= 2 && |s.levels[l].nodes| >= 2
    requires Reached(s.inputs, l + 1, s.levels[l].nodes[1], items)
    requires Indexed(s.levels[l].nodes[1], s.levels[l].lookup)
    requires Hierarchy.Holds(s.inputs[l], s.levels[l - 1].nodes[1], s.levels[l].nodes[1], parent)
    ensures LinkFits(s, l, parent)
  {
    var below, base := s.levels[l - 1].nodes[1], s.levels[l].nodes[1];
    forall i | 0 <= i < |below|
      ensures s.inputs[l].Layers(s.inputs[l].Target(below[i].agg_id)) == s.layers[l]
      ensures base[parent[i]].agg_id == s.inputs[l].Target(below[i].agg_id)
    {
      ReachedAggFits(s, items, l, base[parent[i]].agg_id);
    }
  }

  /** Everything about one level, from the hierarchy being right there. */
  lemma BuiltLevel(s: Setup, items: seq<int>, levels: seq<Level>, parents: seq<seq<nat>>, owners: seq<seq<nat>>, l: nat)
    requires levels == s.levels && RightAt(s.inputs, items, levels, parents, owners, l)
    requires |s.levels| == |s.inputs| && PoliciesFit(s, items)
    ensures s.Width(l) <= s.Size(l)
    ensures forall k: nat :: 1 <= k < |s.levels[l].nodes| ==> LayerFits(s, l, k)
    ensures l > 0 ==> LinkFits(s, l, parents[l])
  {
    var base := s.levels[l].nodes[1];
    IndexedWidth(base, s.levels[l].lookup);
    forall k: nat | 1 <= k < |s.levels[l].nodes| ensures LayerFits(s, l, k) {
      BuiltLayer(s, items, l, k, base);
    }
    if l > 0 { BuiltLink(s, items, l, parents[l]); }
  }

  /** A hierarchy that is right at every level fits the calculation, and its items fit level 0. */
  lemma BuiltFits(s: Setup, items: seq<int>, parents: seq<seq<nat>>, owners: seq<seq<nat>>)
    requires AllRight(s.inputs, items, s.levels, parents, owners) && |s.levels| == |s.inputs| >= 2
    requires forall l :: 0 <= l < |s.levels| ==> |s.levels[l].nodes| == s.maxLayer + 1
    requires forall l :: 0 <= l < |s.layers| ==> 1 <= s.layers[l] <= s.maxLayer
    requires PoliciesFit(s, items) && s.layers[0] == 1
    ensures Fits(s, parents)
    ensures ItemsFit(s, items, parents[0]) && forall j :: 0 <= j < s.Width(0) ==> j in parents[0]
  {
    forall l: nat | l < |s.levels|
      ensures s.Width(l) <= s.Size(l)
      ensures forall k: nat :: 1 <= k < |s.levels[l].nodes| ==> LayerFits(s, l, k)
      ensures l > 0 ==> LinkFits(s, l, parents[l])
    {
      BuiltLevel(s, items, s.levels, parents, owners, l);
    }
    assert RightAt(s.inputs, items, s.levels, parents, owners, 0);
    BuiltItems(s, items, Singles(items), s.levels[0].nodes[1], parents[0]);
  }

  lemma BuiltItems(s: Setup, items: seq<int>, singles: seq<PolicyNode>, base: seq<PolicyNode>, owner: seq<nat>)
    requires 1 <= |s.levels| == |s.inputs| && |s.levels[0].nodes| >= 2 && base == s.levels[0].nodes[1]
    requires Hierarchy.Holds(s.inputs[0], singles, base, owner) && Indexed(base, s.levels[0].lookup)
    requires singles == Singles(items)
    ensures ItemsFit(s, items, owner) && forall j :: 0 <= j < s.Width(0) ==> j in owner
  {
    forall i | 0 <= i < |items|
      ensures owner[i] < |base| && base[owner[i]].agg_id == s.inputs[0].Target(items[i])
    {
      assert singles[i].agg_id == items[i];
    }
  }

  // ---------- the hierarchy and the tables it is built from ----------

  lemma AggOfNode(inputs: seq<LevelInput>, items: seq<int>, maxLayer: nat, depth: nat, a: int)
    requires 1 <= depth <= |inputs| && ProgrammeFits(inputs, items, maxLayer) && Reaches(inputs, depth, a, items)
    ensures 1 <= a <= inputs[depth - 1].maxAgg && 1 <= inputs[depth - 1].Layers(a)
  {}

  /** An aggregate has a node in exactly the layers its list of profiles has, with the profile listed there. */
  lemma NodesFollowPolicies(inputs: seq<LevelInput>, items: seq<int>, maxLayer: nat, levels: seq<Level>,
                            parents: seq<seq<nat>>, owners: seq<seq<nat>>, m: nat, k: nat, j: nat)
    requires AllRight(inputs, items, levels, parents, owners) && ProgrammeFits(inputs, items, maxLayer)
    requires m < |levels| && 1 <= k < |levels[m].nodes| && |levels[m].nodes| >= 2 && j < |levels[m].nodes[1]|
    ensures m < |inputs|
    ensures var node, table := levels[m].nodes[1][j], inputs[m].policy_tc;
            0 < node.agg_id < |table|
            && (j < |levels[m].nodes[k]| <==> k < |table[node.agg_id]|)
            && (j < |levels[m].nodes[k]| ==>
                  levels[m].nodes[k][j] == PolicyNode(table[node.agg_id][k], node.agg_id, node.item_idx))
  {
    assert RightAt(inputs, items, levels, parents, owners, m);
    AggOfNode(inputs, items, maxLayer, m + 1, levels[m].nodes[1][j].agg_id);
    assert LayerOf(inputs[m], levels[m].nodes[1], levels[m].nodes[k], k);
  }

  /** At level l item x is below an aggregate that lists it, the one its tables lead to. */
  ghost predicate ItemAt(inputs: seq<LevelInput>, items: seq<int>, levels: seq<Level>, owners: seq<seq<nat>>, l: nat,
                         x: nat)
    requires x < |items|
  {
    && l < |levels| == |owners| <= |inputs| && |levels[l].nodes| >= 2
    && x < |owners[l]| && owners[l][x] < |levels[l].nodes[1]|
    && levels[l].nodes[1][owners[l][x]].agg_id == AggOf(inputs, l + 1, items[x])
    && x in levels[l].nodes[1][owners[l][x]].item_idx
  }

  lemma ItemIsAt(inputs: seq<LevelInput>, items: seq<int>, levels: seq<Level>, parents: seq<seq<nat>>,
                 owners: seq<seq<nat>>, l: nat, x: nat)
    requires AllRight(inputs, items, levels, parents, owners) && l < |levels| && x < |items|
    ensures ItemAt(inputs, items, levels, owners, l, x)
  {
    assert RightAt(inputs, items, levels, parents, owners, l);
    var j := owners[l][x];
    assert Lists(levels[l].nodes[1][j].item_idx, owners[l], j);
  }

  /** From level to level an item goes where the table of the level sends the aggregate it was in. */
  lemma ItemsFollowTable(inputs: seq<LevelInput>, items: seq<int>, maxLayer: nat, levels: seq<Level>,
                         parents: seq<seq<nat>>, owners: seq<seq<nat>>, m: nat, x: nat)
    requires AllRight(inputs, items, levels, parents, owners) && ProgrammeFits(inputs, items, maxLayer)
    requires m < |levels| && x < |items|
    ensures ItemAt(inputs, items, levels, owners, m, x)
    ensures m > 0 ==> ItemAt(inputs, items, levels, owners, m - 1, x)
    ensures var from := if m == 0 then items[x] else levels[m - 1].nodes[1][owners[m - 1][x]].agg_id;
            0 <= from < |inputs[m].pfm| && levels[m].nodes[1][owners[m][x]].agg_id == inputs[m].pfm[from]
  {
    ItemIsAt(inputs, items, levels, parents, owners, m, x);
    if m > 0 { ItemIsAt(inputs, items, levels, parents, owners, m - 1, x); }
    TargetOfItem(inputs, items, maxLayer, m, x);
  }

  lemma TargetOfItem(inputs: seq<LevelInput>, items: seq<int>, maxLayer: nat, m: nat, x: nat)
    requires ProgrammeFits(inputs, items, maxLayer) && m < |inputs| && x < |items|
    ensures var from := AggOf(inputs, m, items[x]);
            0 <= from < |inputs[m].pfm| && AggOf(inputs, m + 1, items[x]) == inputs[m].pfm[from]
  {
    assert AggOf(inputs, m + 1, items[x]) >= 1;
  }

  // ---------- on to back allocation ----------

  /** The layer 1 vectors of all levels. */
  function FirstLayers(vecs: seq<seq<seq<LossRec>>>): (r: seq<seq<LossRec>>)
    ensures |r| == |vecs| && forall l :: 0 <= l < |r| ==> r[l] == At(vecs, l, 1)
  {
    seq(|vecs|, l => At(vecs, l, 1))
  }

  /** A calculated record lists its aggregate's items and has no proportions yet. */
  lemma CalculatedRecord(s: Setup, level: nat, below: seq<LossRec>, parent: seq<nat>, before: seq<LossRec>,
                         v: seq<LossRec>, j: nat)
    requires Advanced(s, level, 1, below, parent, before, v) && j < |s.Nodes(level, 1)|
    ensures v[j].item_idx == Some(s.Nodes(level, 1)[j].item_idx) && v[j].item_prop == None && v[j].proportion == 0.0
  {
    assert Processed(s, level, 1, below, parent, before, v, j);
    var x := Handed(s, level, 1, below, parent, s.Nodes(level, 1)[j], 0.0, j);
    if 0 < x.policytc_id < |s.profiles| { RuleKeepsIdentity(s.profiles[x.policytc_id], x, 1); }
  }

  lemma CalculatedLevel(s: Setup, level: nat, below: seq<LossRec>, parent: seq<nat>, before: seq<LossRec>,
                        v: seq<LossRec>, owner: seq<nat>)
    requires Advanced(s, level, 1, below, parent, before, v) && Partitions(s.Nodes(level, 1), owner)
    ensures BackAllocation.Owned(v, owner) && BackAllocation.FreshProps(v)
    ensures forall j :: 0 <= j < |v| ==> v[j].proportion == 0.0
  {
    var nodes := s.Nodes(level, 1);
    forall j: nat | j < |v| ensures Lists(OutputRecords.Indices(v[j]), owner, j)
      ensures v[j].item_prop == None && v[j].proportion == 0.0
    {
      if j < |nodes| {
        CalculatedRecord(s, level, below, parent, before, v, j);
        assert Lists(nodes[j].item_idx, owner, j);
      } else {
        assert Idle(v[j]);
      }
    }
  }

  /** After a sample is calculated, its layer 1 vectors are what back allocation starts from. */
  lemma CalculatedIsInput(s: Setup, items: seq<int>, parents: seq<seq<nat>>, owners: seq<seq<nat>>,
                          vecs: seq<seq<seq<LossRec>>>, guls: seq<real>)
    requires AllRight(s.inputs, items, s.levels, parents, owners) && |s.levels| == |s.inputs| >= 2
    requires Fits(s, parents) && Shaped(s, vecs) && DoneBefore(s, parents, vecs, |s.levels|, 1)
    requires |guls| == |items|
    ensures BackAllocation.Input(FirstLayers(vecs), owners, guls)
    ensures forall l, j :: 1 <= l < |vecs| && 0 <= j < |At(vecs, l, 1)| ==> At(vecs, l, 1)[j].proportion == 0.0
  {
    var first := FirstLayers(vecs);
    forall l: nat | 1 <= l < |first|
      ensures BackAllocation.InputAt(first, owners, guls, l)
      ensures forall j :: 0 <= j < |first[l]| ==> first[l][j].proportion == 0.0
    {
      assert RightAt(s.inputs, items, s.levels, parents, owners, l);
      FitsHere(s, parents, l, 1);
      assert DoneAt(s, parents, vecs, l, 1);
      CalculatedLevel(s, l, FeedOf(s, vecs, l, 1), parents[l], At(vecs, l, 0), first[l], owners[l]);
    }
  }
}
