/**
  What an item is given by back allocation: its part of the loss of its aggregate, in proportion
  to what the level below gave the items of the aggregate.
*/
module AllocatedItems {
  import opened FinancialStructs
  import opened RealSums
  import opened OutputRecords
  import opened BackAllocation
  import opened AllocationLaws
  import opened AllocationFlow
  import opened AllocatedOutput

  /** The proportions of a record are to each other as what they are taken from. */
  lemma PropsInProportion(x: LossRec, base: seq<real>)
    requires PropsAre(x, base)
    ensures x.item_idx.Some? && x.item_prop.Some? && |x.item_prop.value| == |x.item_idx.value|
    ensures forall t :: 0 <= t < |x.item_idx.value| ==>
              x.item_idx.value[t] < |base|
              && Times(SumAt(base, x.item_idx.value), x.item_prop.value[t]) == base[x.item_idx.value[t]]
  {
    var at := Indices(x);
    assert at != [];
    forall t | 0 <= t < |at|
      ensures Times(SumAt(base, at), x.item_prop.value[t]) == base[at[t]]
    {
      RatioTimes(base[at[t]], SumAt(base, at));
    }
  }

  /** So the parts of its loss are to the loss. */
  lemma PartsInProportion(x: LossRec, base: seq<real>, t: nat)
    requires PropsAre(x, base) && t < |Indices(x)|
    ensures Times(ItemLoss(x, t), SumAt(base, Indices(x))) == Times(x.loss, base[Indices(x)[t]])
  {
    PropsInProportion(x, base);
    TimesAssociates(x.loss, x.item_prop.value[t], SumAt(base, Indices(x)));
  }

  lemma TimesAssociates(a: real, b: real, c: real)
    ensures Times(Times(a, b), c) == Times(a, Times(c, b))
  {}

  /** Below a level, what it goes by is what the level below allocated, up to a factor. */
  lemma BaseIsAllocation(vecs0: seq<seq<LossRec>>, owners: seq<seq<nat>>, parents: seq<seq<nat>>, guls: seq<real>,
                         allowzeros: bool, vecs: seq<seq<LossRec>>, trace: seq<seq<real>>, l: nat)
      returns (c: real, base: seq<real>, below: seq<real>)
    requires PositiveChildren(vecs0, owners, parents, guls)
    requires Run(vecs0, owners, guls, allowzeros, vecs, trace, |vecs0|) && 1 <= l < |vecs0|
    ensures base == Base(l, guls, trace[l - 1]) && below == Allocation(vecs0, owners, guls, l - 1)
    ensures c > 0.0 && |base| == |below| == |guls| && forall y :: 0 <= y < |below| ==> below[y] == Times(base[y], c)
  {
    base, below := Base(l, guls, trace[l - 1]), Allocation(vecs0, owners, guls, l - 1);
    if l == 1 {
      c := 1.0;
      forall y: nat | y < |guls| ensures guls[y] == Times(guls[y], c) { TimesOne(guls[y]); }
    } else {
      c := TotalLoss(vecs0[l - 1]);
      assert ChildrenAt(vecs0, owners, parents, guls, l - 1);
      ProportionsAreAllocation(vecs0, owners, parents, guls, allowzeros, vecs, trace, l - 1);
    }
  }

  /**
    Where every level has a loss and every loss a child with one, the part of an aggregate's
    loss that goes to an item is what the item is allocated: from its ground-up loss at level
    0, level by level, its aggregate's loss in proportion to the allocation below.
  */
  lemma ItemsGetAllocation(vecs0: seq<seq<LossRec>>, owners: seq<seq<nat>>, parents: seq<seq<nat>>, guls: seq<real>,
                           allowzeros: bool, vecs: seq<seq<LossRec>>, trace: seq<seq<real>>, l: nat, j: nat, t: nat)
    requires PositiveChildren(vecs0, owners, parents, guls)
    requires Run(vecs0, owners, guls, allowzeros, vecs, trace, |vecs0|) && 1 <= l < |vecs0|
    requires j < |vecs0[l]| && vecs0[l][j].loss > 0.0 && t < |Indices(vecs0[l][j])|
    ensures j < |vecs[l]| && Indices(vecs0[l][j])[t] < |guls|
    ensures ItemLoss(vecs[l][j], t) == Allocation(vecs0, owners, guls, l)[Indices(vecs0[l][j])[t]]
  {
    var c, base, below := BaseIsAllocation(vecs0, owners, parents, guls, allowzeros, vecs, trace, l);
    RunProps(vecs0, owners, parents, guls, allowzeros, vecs, trace, l, j);
    assert InputAt(vecs0, owners, guls, l);
    var at := Indices(vecs0[l][j]);
    assert Lists(at, owners[l], j);
    SumAtIsSumWhere(base, at, owners[l], j);
    SameShare(base, below, owners[l], c, j, at[t]);
  }
}
