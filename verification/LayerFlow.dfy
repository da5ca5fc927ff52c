/**
  Where the losses of a level and layer come from, in the numbers of layers alone: the same
  layer of the level below if that has it, and its first layer otherwise.
*/
module LayerFlow {
  import opened FinancialStructs
  import opened RealSums
  import opened CalcRules
  import opened Hierarchy
  import opened FinancialModel

  /** The last layer that is calculated at a level. */
  predicate HasLayer(s: Setup, level: nat, layer: nat) {
    1 <= level < |s.levels| == |s.layers|
    && 1 <= layer <= if level == |s.levels| - 1 then s.maxLayer else s.layers[level]
  }

  /** The five sums an aggregate is handed, each over the records below that belong to it. */
  ghost predicate Sums(x: LossRec, below: seq<LossRec>, parent: seq<nat>, j: nat)
    requires |below| == |parent|
  {
    var n := |below|;
    && x.loss == SumWhere(seq(n, i requires 0 <= i < n => below[i].loss), parent, j)
    && x.retained_loss == SumWhere(seq(n, i requires 0 <= i < n => below[i].retained_loss), parent, j)
    && x.effective_deductible == SumWhere(seq(n, i requires 0 <= i < n => below[i].effective_deductible), parent, j)
    && x.over_limit == SumWhere(seq(n, i requires 0 <= i < n => below[i].over_limit), parent, j)
    && x.under_limit == SumWhere(seq(n, i requires 0 <= i < n => below[i].under_limit), parent, j)
  }

  lemma GatheredSums(below: seq<LossRec>, parent: seq<nat>, node: PolicyNode, tiv: real, j: nat)
    requires |below| == |parent|
    ensures Sums(Gathered(below, parent, node, tiv, j), below, parent, j)
  {
    var n := |below|;
    assert Column(below, Loss) == seq(n, i requires 0 <= i < n => below[i].loss);
    assert Column(below, Retained) == seq(n, i requires 0 <= i < n => below[i].retained_loss);
    assert Column(below, Deductible) == seq(n, i requires 0 <= i < n => below[i].effective_deductible);
    assert Column(below, Over) == seq(n, i requires 0 <= i < n => below[i].over_limit);
    assert Column(below, Under) == seq(n, i requires 0 <= i < n => below[i].under_limit);
  }

  /** Who the record belongs to. */
  predicate IsOf(s: Setup, level: nat, x: LossRec, node: PolicyNode) {
    && x.agg_id == node.agg_id && x.policytc_id == node.policytc_id && x.item_idx == Some(node.item_idx)
    && x.accumulated_tiv == if s.gulStream && level < |s.tivs| && 0 <= node.agg_id < |s.tivs[level]|
                            then s.tivs[level][node.agg_id] else 0.0
  }

  /** The rule of its profile is applied to a record with a loss or a retained loss; rule 100 leaves it alone. */
  predicate TermsApplied(s: Setup, x: LossRec, layer: nat, y: LossRec) {
    y == if (x.loss > 0.0 || x.retained_loss > 0.0) && 0 < x.policytc_id < |s.profiles|
            && s.profiles[x.policytc_id].calcrule_id != 100
         then Rule(s.profiles[x.policytc_id], x, layer) else x
  }

  /** The level below, at the layer that feeds this one, cut to its n aggregates. */
  ghost predicate Below(s: Setup, vecs: seq<seq<seq<LossRec>>>, level: nat, layer: nat, n: nat, v: seq<LossRec>)
    requires 1 <= level <= |s.layers|
  {
    var prev := if layer <= s.layers[level - 1] then At(vecs, level - 1, layer) else At(vecs, level - 1, 1);
    n <= |prev| && v == prev[..n] && forall i :: n <= i < |prev| ==> prev[i].loss == 0.0
  }

  lemma FeedIsBelow(s: Setup, parents: seq<seq<nat>>, vecs: seq<seq<seq<LossRec>>>, level: nat, layer: nat)
    requires Fits(s, parents) && DoneBefore(s, parents, vecs, |s.levels|, 1) && HasLayer(s, level, layer)
    ensures IsPlace(s, level, layer) && DoneAt(s, parents, vecs, level, layer)
    ensures Below(s, vecs, level, layer, |parents[level]|, FeedOf(s, vecs, level, layer))
  {
    assert IsPlace(s, level, layer) && DoneAt(s, parents, vecs, level, layer);
    FitsHere(s, parents, level, layer);
    var k := s.FeedLayer(level, layer);
    assert DoneAt(s, parents, vecs, level - 1, k);
    DoneIsLive(s, parents, vecs, level - 1, k);
    assert LayerFits(s, level - 1, k);
  }

  /**
    Of a finished run: the record of an aggregate at a level and layer is what its terms make
    of the sums over its children one level below, on the same layer if the level below has
    it and on the first otherwise, and of what the layer before retained.
  */
  lemma FedBy(s: Setup, parents: seq<seq<nat>>, vecs: seq<seq<seq<LossRec>>>, level: nat, layer: nat, j: nat)
      returns (x: LossRec, below: seq<LossRec>)
    requires Fits(s, parents) && DoneBefore(s, parents, vecs, |s.levels|, 1) && HasLayer(s, level, layer)
    requires j < |s.Nodes(level, layer)|
    ensures Below(s, vecs, level, layer, |parents[level]|, below) && Sums(x, below, parents[level], j)
    ensures IsOf(s, level, x, s.Nodes(level, layer)[j])
    ensures layer > 1 ==> j < |At(vecs, level, layer - 1)|
                          && x.previous_layer_retained_loss == At(vecs, level, layer - 1)[j].retained_loss
    ensures layer == 1 ==> x.previous_layer_retained_loss == 0.0
    ensures j < |At(vecs, level, layer)| && TermsApplied(s, x, layer, At(vecs, level, layer)[j])
  {
    FeedIsBelow(s, parents, vecs, level, layer);
    below := FeedOf(s, vecs, level, layer);
    var node, before := s.Nodes(level, layer)[j], At(vecs, level, layer - 1);
    assert Processed(s, level, layer, below, parents[level], before, At(vecs, level, layer), j);
    x := Handed(s, level, layer, below, parents[level], node, if layer > 1 then before[j].retained_loss else 0.0, j);
    GatheredSums(below, parents[level], node, s.Tiv(level, node.agg_id), j);
  }

  // ---------- a level without terms ----------

  function LossesOn(v: seq<LossRec>): (r: seq<real>)
    ensures |r| == |v| && forall i :: 0 <= i < |v| ==> r[i] == v[i].loss
  {
    seq(|v|, i requires 0 <= i < |v| => v[i].loss)
  }

  lemma {:induction false} ZeroTail(s: seq<real>, n: nat)
    requires n <= |s| && forall i :: n <= i < |s| ==> s[i] == 0.0
    ensures Sum(s) == Sum(s[..n])
  {
    if n < |s| {
      ZeroTail(s[..|s| - 1], n);
      assert s[..|s| - 1][..n] == s[..n];
    } else {
      assert s[..n] == s;
    }
  }

  ghost predicate NoTerms(s: Setup, level: nat, layer: nat) {
    forall j :: 0 <= j < |s.Nodes(level, layer)| ==>
      var id := s.Nodes(level, layer)[j].policytc_id;
      0 < id < |s.profiles| ==> s.profiles[id].calcrule_id == 100
  }

  /**
    A level without terms keeps the loss of every layer: of the same layer of the level below
    if that has it, and of the first otherwise.
  */
  lemma NoTermsKeep(s: Setup, parents: seq<seq<nat>>, vecs: seq<seq<seq<LossRec>>>, level: nat, layer: nat)
    requires Fits(s, parents) && DoneBefore(s, parents, vecs, |s.levels|, 1) && HasLayer(s, level, layer)
    requires NoTerms(s, level, layer) && layer <= s.layers[level]
    ensures Sum(LossesOn(At(vecs, level, layer)))
            == Sum(LossesOn(At(vecs, level - 1, if layer <= s.layers[level - 1] then layer else 1)))
  {
    FeedIsBelow(s, parents, vecs, level, layer);
    FitsHere(s, parents, level, layer);
    var below, n := FeedOf(s, vecs, level, layer), |s.Nodes(level, layer)|;
    LiveLosses(s, parents, vecs, level, layer);
    forall j: nat | j < n ensures At(vecs, level, layer)[j].loss == SumWhere(LossesOn(below), parents[level], j) {
      NoTermsRecord(s, parents, vecs, level, layer, j);
    }
    HandedOn(below, parents[level], n, At(vecs, level, layer),
             At(vecs, level - 1, if layer <= s.layers[level - 1] then layer else 1));
  }

  lemma LiveLosses(s: Setup, parents: seq<seq<nat>>, vecs: seq<seq<seq<LossRec>>>, level: nat, layer: nat)
    requires IsPlace(s, level, layer) && DoneAt(s, parents, vecs, level, layer)
    ensures var v, n := At(vecs, level, layer), |s.Nodes(level, layer)|;
            n <= |v| && forall i :: n <= i < |v| ==> v[i].loss == 0.0
  {
    DoneIsLive(s, parents, vecs, level, layer);
  }

  lemma NoTermsRecord(s: Setup, parents: seq<seq<nat>>, vecs: seq<seq<seq<LossRec>>>, level: nat, layer: nat, j: nat)
    requires Fits(s, parents) && DoneBefore(s, parents, vecs, |s.levels|, 1) && HasLayer(s, level, layer)
    requires NoTerms(s, level, layer) && j < |s.Nodes(level, layer)|
    ensures var below := FeedOf(s, vecs, level, layer);
            |below| == |parents[level]| && j < |At(vecs, level, layer)|
            && At(vecs, level, layer)[j].loss == SumWhere(LossesOn(below), parents[level], j)
  {
    FeedIsBelow(s, parents, vecs, level, layer);
    var x, b := FedBy(s, parents, vecs, level, layer, j);
    assert b == FeedOf(s, vecs, level, layer);
    assert LossesOn(b) == seq(|b|, i requires 0 <= i < |b| => b[i].loss);
  }

  /** The sums over the children of all aggregates add up to the losses below. */
  lemma HandedOn(below: seq<LossRec>, parent: seq<nat>, n: nat, v: seq<LossRec>, prev: seq<LossRec>)
    requires |below| == |parent| && n <= |v| && |below| <= |prev| && below == prev[..|below|]
    requires forall i :: 0 <= i < |parent| ==> parent[i] < n
    requires forall i :: n <= i < |v| ==> v[i].loss == 0.0
    requires forall i :: |below| <= i < |prev| ==> prev[i].loss == 0.0
    requires forall j: nat :: j < n ==> v[j].loss == SumWhere(LossesOn(below), parent, j)
    ensures Sum(LossesOn(v)) == Sum(LossesOn(prev))
  {
    GroupsSum(LossesOn(below), parent, LossesOn(v)[..n]);
    ZeroTail(LossesOn(v), n);
    ZeroTail(LossesOn(prev), |below|);
    assert LossesOn(prev)[..|below|] == LossesOn(below);
  }

  // ---------- where a sample starts ----------

  lemma {:induction false} LastTivIs(tivs: seq<real>, owner: seq<nat>, j: nat, i: nat)
    requires |tivs| == |owner| && i < |owner| && owner[i] == j && forall k :: i < k < |owner| ==> owner[k] != j
    ensures LastTiv(tivs, owner, j) == tivs[i]
  {
    var n := |owner| - 1;
    if i < n { LastTivIs(tivs[..n], owner[..n], j, i); }
  }

  /** An aggregate of level 0 has the losses of its items, and the insured value of the last of them. */
  lemma StartOf(v: seq<LossRec>, guls: seq<real>, tivs: seq<real>, owner: seq<nat>, nodes: seq<PolicyNode>, i: nat)
    requires Started(v, guls, tivs, owner, nodes) && i < |owner| && owner[i] < |v|
    requires forall k :: i < k < |owner| ==> owner[k] != owner[i]
    ensures var j := owner[i];
            v[j].loss == SumWhere(guls, owner, j) && v[j].accumulated_tiv == tivs[i]
            && v[j].agg_id == nodes[j].agg_id && v[j].policytc_id == nodes[j].policytc_id
            && v[j].item_idx == Some(nodes[j].item_idx) && v[j].retained_loss == v[j].effective_deductible == 0.0
            && v[j].over_limit == v[j].under_limit == 0.0
  {
    LastTivIs(tivs, owner, owner[i], i);
  }
}
