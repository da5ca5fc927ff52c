/**
  What back allocation is for: the loss of every aggregate is shared among its items without
  remainder, in proportion to what the level below allocated to them.
*/
module AllocationLaws {
  import opened FinancialStructs
  import opened RealSums
  import opened OutputRecords
  import opened BackAllocation

  // ---------- the programmes back allocation is meant for ----------

  ghost predicate NonNegativeLosses(v: seq<LossRec>) { forall j :: 0 <= j < |v| ==> v[j].loss >= 0.0 }

  /** The total loss of a level. */
  function TotalLoss(v: seq<LossRec>): real { LossTotal(v, true) }

  /** An aggregate at level l is the parent of the aggregates below it. */
  ghost predicate Linked(below: seq<nat>, above: seq<nat>, parent: seq<nat>) {
    |below| == |above| && forall y :: 0 <= y < |below| ==> below[y] < |parent| && above[y] == parent[below[y]]
  }

  ghost predicate HasPositiveChild(below: seq<LossRec>, parent: seq<nat>, j: nat) {
    exists i :: 0 <= i < |below| && i < |parent| && parent[i] == j && below[i].loss > 0.0
  }

  /** No aggregate has a loss without a child that has one. */
  ghost predicate LossesHaveChildren(vecs: seq<seq<LossRec>>, owners: seq<seq<nat>>, parents: seq<seq<nat>>,
                                     guls: seq<real>)
  {
    && Input(vecs, owners, guls) && |parents| == |vecs| && NonNegative(guls)
    && (forall l: nat {:trigger ChildrenAt(vecs, owners, parents, guls, l)} :: 1 <= l < |vecs| ==>
          ChildrenAt(vecs, owners, parents, guls, l))
  }

  ghost predicate ChildrenAt(vecs: seq<seq<LossRec>>, owners: seq<seq<nat>>, parents: seq<seq<nat>>, guls: seq<real>,
                             l: nat)
    requires 1 <= l < |vecs| == |owners| == |parents|
  {
    && NonNegativeLosses(vecs[l]) && InputAt(vecs, owners, guls, l)
    && (if l == 1 then forall j: nat :: j < |vecs[1]| && vecs[1][j].loss > 0.0 ==> SumWhere(guls, owners[1], j) > 0.0
        else |parents[l]| <= |vecs[l - 1]| && Linked(owners[l - 1], owners[l], parents[l])
             && forall j: nat :: j < |vecs[l]| && vecs[l][j].loss > 0.0 ==>
                  HasPositiveChild(vecs[l - 1], parents[l], j))
  }

  /** Every level has some loss, and no aggregate has a loss without a child that has one. */
  ghost predicate PositiveChildren(vecs: seq<seq<LossRec>>, owners: seq<seq<nat>>, parents: seq<seq<nat>>,
                                   guls: seq<real>)
  {
    LossesHaveChildren(vecs, owners, parents, guls) && forall l :: 1 <= l < |vecs| ==> TotalLoss(vecs[l]) > 0.0
  }

  // ---------- one level ----------

  lemma {:induction false} SkippingKeepsTotal(v: seq<LossRec>, allowzeros: bool)
    requires NonNegativeLosses(v)
    ensures LossTotal(v, allowzeros) == TotalLoss(v)
  {
    if v != [] { SkippingKeepsTotal(v[..|v| - 1], allowzeros); }
  }

  /** One factor for all items of an aggregate. */
  lemma ClaimedIsScaled(base: seq<real>, y: nat, total: real, proportion: real)
    requires y < |base| && total > 0.0
    ensures Claimed(base, y, total, proportion) == Times(base[y], Ratio(proportion, total))
  {}

  lemma RatioTimes(a: real, b: real)
    requires b > 0.0
    ensures Times(b, Ratio(a, b)) == a
  {}

  lemma RatioNonNegative(a: real, b: real)
    requires a >= 0.0 && b > 0.0
    ensures Ratio(a, b) >= 0.0
    ensures a > 0.0 ==> Ratio(a, b) > 0.0
  {}

  lemma ProportionIsRatio(x: LossRec, loss_total: real)
    requires x.loss >= 0.0 && loss_total > 0.0
    ensures ProportionOf(x, loss_total) == Ratio(x.loss, loss_total)
  {}

  /** What a level needs of the level below: shares to go by wherever there is loss. */
  ghost predicate Shareable(v: seq<LossRec>, owner: seq<nat>, base: seq<real>, items0: seq<real>) {
    && |owner| == |base| == |items0| && NonNegative(base)
    && (forall y :: 0 <= y < |base| && base[y] == 0.0 ==> items0[y] == 0.0)
    && (forall j: nat :: j < |v| && v[j].loss > 0.0 ==> SumWhere(base, owner, j) > 0.0)
  }

  /** Shares of one aggregate: all scaled alike. */
  lemma ScaledShares(base: seq<real>, items: seq<real>, owner: seq<nat>, j: nat, total: real, p: real)
    requires |owner| == |base| == |items| && NonNegative(base) && total == SumWhere(base, owner, j) > 0.0 && p >= 0.0
    requires forall y: nat :: y < |items| && owner[y] == j ==> items[y] == Claimed(base, y, total, p)
    ensures SumWhere(items, owner, j) == p
    ensures forall y :: 0 <= y < |items| && owner[y] == j ==> items[y] >= 0.0
  {
    var c := Ratio(p, total);
    forall y: nat | y < |items| && owner[y] == j
      ensures items[y] == Times(base[y], c) && items[y] >= 0.0
    {
      ClaimedIsScaled(base, y, total, p);
      RatioNonNegative(base[y], total);
      TimesNonNegative(Ratio(base[y], total), p);
    }
    SumWhereScale(base, items, owner, j, c);
    RatioTimes(p, total);
  }

  /** An aggregate with nothing to go by leaves its items without a share. */
  lemma NoShares(base: seq<real>, items0: seq<real>, items: seq<real>, owner: seq<nat>, j: nat)
    requires |owner| == |base| == |items| == |items0| && NonNegative(base) && SumWhere(base, owner, j) <= 0.0
    requires forall y :: 0 <= y < |base| && base[y] == 0.0 ==> items0[y] == 0.0
    requires forall y: nat :: y < |items| && owner[y] == j ==> items[y] == items0[y]
    ensures SumWhere(items, owner, j) == 0.0
    ensures forall y :: 0 <= y < |items| && owner[y] == j ==> items[y] == 0.0
  {
    SumWhereNonNegative(base, owner, j);
    forall y: nat | y < |items| && owner[y] == j ensures items[y] == 0.0 {
      assert base[y] <= SumWhere(base, owner, j);
    }
    ZeroSumWhere(items, owner, j);
  }

  /** Under one aggregate the new proportions add up to the aggregate's share of the level's loss. */
  lemma SharesAddUp(level: nat, v: seq<LossRec>, owner: seq<nat>, guls: seq<real>, items0: seq<real>,
                    items: seq<real>, loss_total: real, j: nat)
    requires |owner| == |guls| == |items0| == |items| && j < |v| && v[j].loss >= 0.0 && loss_total > 0.0
    requires forall y :: 0 <= y < |owner| ==> owner[y] < |v|
    requires Shareable(v, owner, Base(level, guls, items0), items0)
    requires forall y: nat :: y < |guls| ==> items[y] == ShareOf(level, v, owner, guls, items0, loss_total, y)
    ensures SumWhere(items, owner, j) == Ratio(v[j].loss, loss_total)
    ensures forall y :: 0 <= y < |items| && owner[y] == j ==> items[y] >= 0.0
  {
    var base := Base(level, guls, items0);
    var total := SumWhere(base, owner, j);
    ProportionIsRatio(v[j], loss_total);
    RatioNonNegative(v[j].loss, loss_total);
    if total > 0.0 {
      ScaledShares(base, items, owner, j, total, Ratio(v[j].loss, loss_total));
    } else {
      NoShares(base, items0, items, owner, j);
      ZeroRatio(loss_total);
    }
  }

  lemma ZeroRatio(b: real)
    requires b > 0.0
    ensures Ratio(0.0, b) == 0.0
  {}

  /** The state of the proportions after a level. */
  ghost predicate Shared(v: seq<LossRec>, owner: seq<nat>, items: seq<real>) {
    && |owner| == |items| && NonNegative(items) && TotalLoss(v) > 0.0
    && forall j: nat :: j < |v| ==> SumWhere(items, owner, j) == Ratio(v[j].loss, TotalLoss(v))
  }

  lemma StepShares(level: nat, v0: seq<LossRec>, prev: seq<LossRec>, guls: seq<real>, owner: seq<nat>,
                   items0: seq<real>, allowzeros: bool, v: seq<LossRec>, items: seq<real>)
    requires LevelStep(level, v0, prev, guls, owner, items0, allowzeros, v, items) && !CopiesDown(v0, prev, allowzeros)
    ensures var p := PreparedAll(v0, guls, allowzeros);
            forall y: nat :: y < |guls| ==>
              items[y] == ShareOf(level, p, owner, guls, items0, LossTotal(v0, allowzeros), y)
  {
    var p := PreparedAll(v0, guls, allowzeros);
    forall y: nat | y < |guls|
      ensures items[y] == ShareOf(level, p, owner, guls, items0, LossTotal(v0, allowzeros), y)
    {
      assert ItemStep(level, p, owner, guls, items0, LossTotal(v0, allowzeros), items, y);
    }
  }

  /** Preparing records changes neither their losses nor who owns the items. */
  lemma PreparedShareable(v0: seq<LossRec>, owner: seq<nat>, base: seq<real>, items0: seq<real>, guls: seq<real>,
                          allowzeros: bool)
    requires AllInRange(v0, |guls|) && NonNegativeLosses(v0) && Shareable(v0, owner, base, items0)
    ensures var p := PreparedAll(v0, guls, allowzeros);
            NonNegativeLosses(p) && Shareable(p, owner, base, items0)
            && forall j :: 0 <= j < |p| ==> p[j].loss == v0[j].loss
  {}

  lemma LevelShares(level: nat, v0: seq<LossRec>, prev: seq<LossRec>, guls: seq<real>, owner: seq<nat>,
                    items0: seq<real>, allowzeros: bool, v: seq<LossRec>, items: seq<real>)
    requires LevelStep(level, v0, prev, guls, owner, items0, allowzeros, v, items)
    requires NonNegativeLosses(v0) && TotalLoss(v0) > 0.0
    requires Shareable(v0, owner, Base(level, guls, items0), items0)
    ensures !CopiesDown(v0, prev, allowzeros) && Shared(v0, owner, items)
  {
    SkippingKeepsTotal(v0, allowzeros);
    StepShares(level, v0, prev, guls, owner, items0, allowzeros, v, items);
    PreparedShareable(v0, owner, Base(level, guls, items0), items0, guls, allowzeros);
    AllShares(level, PreparedAll(v0, guls, allowzeros), owner, guls, items0, items, TotalLoss(v0));
  }

  lemma AllShares(level: nat, v: seq<LossRec>, owner: seq<nat>, guls: seq<real>, items0: seq<real>,
                  items: seq<real>, loss_total: real)
    requires |owner| == |guls| == |items0| == |items| && NonNegativeLosses(v) && loss_total > 0.0
    requires forall y :: 0 <= y < |owner| ==> owner[y] < |v|
    requires Shareable(v, owner, Base(level, guls, items0), items0)
    requires forall y: nat :: y < |guls| ==> items[y] == ShareOf(level, v, owner, guls, items0, loss_total, y)
    ensures forall j: nat :: j < |v| ==> SumWhere(items, owner, j) == Ratio(v[j].loss, loss_total)
    ensures NonNegative(items)
  {
    forall j: nat | j < |v| ensures SumWhere(items, owner, j) == Ratio(v[j].loss, loss_total) {
      SharesAddUp(level, v, owner, guls, items0, items, loss_total, j);
    }
    forall y | 0 <= y < |items| ensures items[y] >= 0.0 {
      SharesAddUp(level, v, owner, guls, items0, items, loss_total, owner[y]);
    }
  }

  /** A positive child makes the shares under an aggregate positive. */
  lemma ChildMakesShareable(below: seq<LossRec>, ownerBelow: seq<nat>, items: seq<real>, v: seq<LossRec>,
                            owner: seq<nat>, parent: seq<nat>)
    requires Shared(below, ownerBelow, items) && NonNegativeLosses(below)
    requires |parent| <= |below| && Linked(ownerBelow, owner, parent)
    requires forall j: nat :: j < |v| && v[j].loss > 0.0 ==> HasPositiveChild(below, parent, j)
    ensures Shareable(v, owner, items, items)
  {
    var groups := Ratios(below, TotalLoss(below))[..|parent|];
    forall j: nat | j < |v| && v[j].loss > 0.0 ensures SumWhere(items, owner, j) > 0.0 {
      GroupsCompose(items, ownerBelow, groups, parent, owner, j);
      var i :| 0 <= i < |below| && i < |parent| && parent[i] == j && below[i].loss > 0.0;
      RatioNonNegative(below[i].loss, TotalLoss(below));
      SumWhereNonNegative(groups, parent, j);
      assert groups[i] <= SumWhere(groups, parent, j);
    }
  }

  function Ratios(v: seq<LossRec>, total: real): (r: seq<real>)
    requires total > 0.0
    ensures |r| == |v| && forall j :: 0 <= j < |v| ==> r[j] == Ratio(v[j].loss, total)
    ensures forall j :: 0 <= j < |v| && v[j].loss >= 0.0 ==> r[j] >= 0.0
  {
    seq(|v|, j requires 0 <= j < |v| => Ratio(v[j].loss, total))
  }

  // ---------- all levels ----------

  /** After every level, the proportions under each aggregate sum to its share of the level's loss. */
  lemma {:induction false} RunShares(vecs0: seq<seq<LossRec>>, owners: seq<seq<nat>>, parents: seq<seq<nat>>,
                                     guls: seq<real>, allowzeros: bool, vecs: seq<seq<LossRec>>,
                                     trace: seq<seq<real>>, l: nat)
    requires PositiveChildren(vecs0, owners, parents, guls)
    requires Run(vecs0, owners, guls, allowzeros, vecs, trace, |vecs0|) && 1 <= l < |vecs0|
    ensures Shareable(vecs0[l], owners[l], Base(l, guls, trace[l - 1]), trace[l - 1])
    ensures !CopiesDown(vecs0[l], vecs[l - 1], allowzeros) && Shared(vecs0[l], owners[l], trace[l])
    ensures NonNegativeLosses(vecs0[l]) && StepAt(vecs0, owners, guls, allowzeros, vecs, trace, l)
  {
    if l > 1 {
      RunShares(vecs0, owners, parents, guls, allowzeros, vecs, trace, l - 1);
    }
    ShareableAt(vecs0, owners, parents, guls, trace, l);
    assert StepAt(vecs0, owners, guls, allowzeros, vecs, trace, l);
    LevelShares(l, vecs0[l], vecs[l - 1], guls, owners[l], trace[l - 1], allowzeros, vecs[l], trace[l]);
  }

  /** There are shares to go by at level 1, and after them at every level. */
  lemma ShareableAt(vecs0: seq<seq<LossRec>>, owners: seq<seq<nat>>, parents: seq<seq<nat>>, guls: seq<real>,
                    trace: seq<seq<real>>, l: nat)
    requires PositiveChildren(vecs0, owners, parents, guls) && 1 <= l < |vecs0| && l <= |trace|
    requires trace[0] == Zeros(|guls|) && |trace[l - 1]| == |guls|
    requires l > 1 ==> Shared(vecs0[l - 1], owners[l - 1], trace[l - 1]) && NonNegativeLosses(vecs0[l - 1])
    ensures Shareable(vecs0[l], owners[l], Base(l, guls, trace[l - 1]), trace[l - 1])
    ensures NonNegativeLosses(vecs0[l]) && TotalLoss(vecs0[l]) > 0.0
  {
    assert ChildrenAt(vecs0, owners, parents, guls, l);
    if l > 1 {
      ChildMakesShareable(vecs0[l - 1], owners[l - 1], trace[l - 1], vecs0[l], owners[l], parents[l]);
    }
  }

  // ---------- item proportions ----------

  lemma RatioAdds(a: real, b: real, c: real)
    requires c > 0.0
    ensures Ratio(a, c) + Ratio(b, c) == Ratio(a + b, c)
  {}

  lemma {:induction false} FractionsSum(base: seq<real>, at: seq<nat>, total: real)
    requires InRange(at, |base|) && total > 0.0
    ensures Sum(Fractions(base, at, total)) == Ratio(SumAt(base, at), total)
  {
    if at == [] {
      ZeroRatio(total);
    } else {
      var n := |at| - 1;
      FractionsSum(base, at[..n], total);
      RatioAdds(SumAt(base, at[..n]), base[at[n]], total);
      SumSnoc(Fractions(base, at[..n], total), Ratio(base[at[n]], total));
    }
  }

  lemma RatioOfSelf(a: real)
    requires a > 0.0
    ensures Ratio(a, a) == 1.0
  {}

  /** Each item's part of what the items of its aggregate have below. */
  ghost predicate PropsAre(x: LossRec, base: seq<real>) {
    && InRange(Indices(x), |base|) && SumAt(base, Indices(x)) > 0.0
    && x.item_prop == Some(Fractions(base, Indices(x), SumAt(base, Indices(x))))
  }

  lemma PropsSumToOne(x: LossRec, base: seq<real>)
    requires PropsAre(x, base)
    ensures Sum(x.item_prop.value) == 1.0
  {
    FractionsSum(base, Indices(x), SumAt(base, Indices(x)));
    RatioOfSelf(SumAt(base, Indices(x)));
  }

  /** An aggregate with a loss ends up with the proportions of its items, with or without zero-skipping. */
  lemma LevelProps(level: nat, v0: seq<LossRec>, prev: seq<LossRec>, guls: seq<real>, owner: seq<nat>,
                   items0: seq<real>, allowzeros: bool, v: seq<LossRec>, items: seq<real>, j: nat)
    requires LevelStep(level, v0, prev, guls, owner, items0, allowzeros, v, items)
    requires !CopiesDown(v0, prev, allowzeros) && Shareable(v0, owner, Base(level, guls, items0), items0)
    requires j < |v0| && v0[j].loss > 0.0
    ensures PropsAre(v[j], Base(level, guls, items0)) && Indices(v[j]) == Indices(v0[j]) && v[j].loss == v0[j].loss
  {
    var base := Base(level, guls, items0);
    assert Lists(Indices(v0[j]), owner, j);
    SumAtIsSumWhere(base, Indices(v0[j]), owner, j);
    assert Indices(v0[j]) != [];
    assert RecordStep(level, PreparedAll(v0, guls, allowzeros), prev, guls, items0, LossTotal(v0, allowzeros), v, j);
  }

  /** The item proportions of every aggregate with a loss, at every level. */
  lemma RunProps(vecs0: seq<seq<LossRec>>, owners: seq<seq<nat>>, parents: seq<seq<nat>>, guls: seq<real>,
                 allowzeros: bool, vecs: seq<seq<LossRec>>, trace: seq<seq<real>>, l: nat, j: nat)
    requires PositiveChildren(vecs0, owners, parents, guls)
    requires Run(vecs0, owners, guls, allowzeros, vecs, trace, |vecs0|) && 1 <= l < |vecs0|
    requires j < |vecs0[l]| && vecs0[l][j].loss > 0.0
    ensures j < |vecs[l]| && PropsAre(vecs[l][j], Base(l, guls, trace[l - 1]))
    ensures Indices(vecs[l][j]) == Indices(vecs0[l][j]) && vecs[l][j].loss == vecs0[l][j].loss
    ensures Sum(vecs[l][j].item_prop.value) == 1.0
  {
    RunShares(vecs0, owners, parents, guls, allowzeros, vecs, trace, l);
    assert StepAt(vecs0, owners, guls, allowzeros, vecs, trace, l);
    LevelProps(l, vecs0[l], vecs[l - 1], guls, owners[l], trace[l - 1], allowzeros, vecs[l], trace[l], j);
    PropsSumToOne(vecs[l][j], Base(l, guls, trace[l - 1]));
  }

  // ---------- what an item is allocated, stated directly ----------

  /** An item's part of its aggregate's loss, in proportion to what the level below allocated. */
  function AllocatedTo(v: seq<LossRec>, owner: seq<nat>, below: seq<real>, y: nat): real
    requires |owner| == |below| && y < |owner| && owner[y] < |v|
  {
    var total := SumWhere(below, owner, owner[y]);
    if total > 0.0 then Times(v[owner[y]].loss, Ratio(below[y], total)) else 0.0
  }

  /** What every item is allocated of the losses of a level; at level 0 that is its ground-up loss. */
  ghost function Allocation(vecs: seq<seq<LossRec>>, owners: seq<seq<nat>>, guls: seq<real>, l: nat): (a: seq<real>)
    requires Input(vecs, owners, guls) && l < |vecs|
    ensures |a| == |guls|
  {
    if l == 0 then guls
    else
      assert InputAt(vecs, owners, guls, l);
      seq(|guls|, y requires 0 <= y < |guls| =>
           AllocatedTo(vecs[l], owners[l], Allocation(vecs, owners, guls, l - 1), y))
  }

  lemma RatioScales(a: real, b: real, c: real)
    requires b > 0.0 && c > 0.0
    ensures Times(b, c) > 0.0 && Ratio(Times(a, c), Times(b, c)) == Ratio(a, b)
  {}

  lemma ShareTimesTotal(r: real, loss: real, total: real)
    requires total > 0.0
    ensures Times(Times(r, Ratio(loss, total)), total) == Times(loss, r)
  {}

  /** Shares depend on proportions only. */
  lemma SameShare(base: seq<real>, below: seq<real>, owner: seq<nat>, c: real, j: nat, y: nat)
    requires |base| == |below| == |owner| && c > 0.0 && y < |owner| && owner[y] == j
    requires forall z :: 0 <= z < |base| ==> below[z] == Times(base[z], c)
    ensures SumWhere(below, owner, j) > 0.0 <==> SumWhere(base, owner, j) > 0.0
    ensures SumWhere(base, owner, j) > 0.0 ==>
              Ratio(below[y], SumWhere(below, owner, j)) == Ratio(base[y], SumWhere(base, owner, j))
  {
    SumWhereScale(base, below, owner, j, c);
    PositiveScale(SumWhere(base, owner, j), c);
    if SumWhere(base, owner, j) > 0.0 { RatioScales(base[y], SumWhere(base, owner, j), c); }
  }

  lemma PositiveScale(a: real, c: real)
    requires c > 0.0
    ensures Times(a, c) > 0.0 <==> a > 0.0
  {}

  lemma LevelAllocates(level: nat, v0: seq<LossRec>, prev: seq<LossRec>, guls: seq<real>, owner: seq<nat>,
                       items0: seq<real>, allowzeros: bool, v: seq<LossRec>, items: seq<real>, below: seq<real>,
                       c: real, y: nat)
    requires LevelStep(level, v0, prev, guls, owner, items0, allowzeros, v, items)
    requires NonNegativeLosses(v0) && TotalLoss(v0) > 0.0 && !CopiesDown(v0, prev, allowzeros)
    requires Shareable(v0, owner, Base(level, guls, items0), items0)
    requires c > 0.0 && |below| == |guls| && y < |guls|
    requires forall z :: 0 <= z < |guls| ==> below[z] == Times(Base(level, guls, items0)[z], c)
    ensures Times(items[y], TotalLoss(v0)) == AllocatedTo(v0, owner, below, y)
  {
    var base, j := Base(level, guls, items0), owner[y];
    SkippingKeepsTotal(v0, allowzeros);
    var p := PreparedAll(v0, guls, allowzeros);
    assert ItemStep(level, p, owner, guls, items0, TotalLoss(v0), items, y);
    SameShare(base, below, owner, c, j, y);
    var total := SumWhere(base, owner, j);
    if total > 0.0 {
      ProportionIsRatio(p[j], TotalLoss(v0));
      ShareTimesTotal(Ratio(base[y], total), v0[j].loss, TotalLoss(v0));
    } else {
      SumWhereNonNegative(base, owner, j);
      assert base[y] == 0.0;
      TimesZero(TotalLoss(v0));
    }
  }

  /** The proportions the code iterates are the direct allocation, as fractions of the level's loss. */
  lemma {:induction false} ProportionsAreAllocation(vecs0: seq<seq<LossRec>>, owners: seq<seq<nat>>,
                                                    parents: seq<seq<nat>>, guls: seq<real>, allowzeros: bool,
                                                    vecs: seq<seq<LossRec>>, trace: seq<seq<real>>, l: nat)
    requires PositiveChildren(vecs0, owners, parents, guls)
    requires Run(vecs0, owners, guls, allowzeros, vecs, trace, |vecs0|) && 1 <= l < |vecs0|
    ensures |trace[l]| == |guls|
    ensures forall y: nat :: y < |guls| ==>
              Times(trace[l][y], TotalLoss(vecs0[l])) == Allocation(vecs0, owners, guls, l)[y]
  {
    var below := Allocation(vecs0, owners, guls, l - 1);
    var c := if l == 1 then 1.0 else TotalLoss(vecs0[l - 1]);
    if l > 1 {
      assert ChildrenAt(vecs0, owners, parents, guls, l - 1);
      ProportionsAreAllocation(vecs0, owners, parents, guls, allowzeros, vecs, trace, l - 1);
    }
    RunShares(vecs0, owners, parents, guls, allowzeros, vecs, trace, l);
    assert StepAt(vecs0, owners, guls, allowzeros, vecs, trace, l);
    forall y: nat | y < |guls|
      ensures Times(trace[l][y], TotalLoss(vecs0[l])) == Allocation(vecs0, owners, guls, l)[y]
    {
      LevelAllocates(l, vecs0[l], vecs[l - 1], guls, owners[l], trace[l - 1], allowzeros, vecs[l], trace[l], below, c,
                     y);
    }
  }
}
