/**
  What back allocation writes. The losses written for the top level add up to its losses, and
  zero-skipping writes the same records, each under a condition that is exact and can be told
  from the losses, retained losses and item lists that back allocation is given.
*/
module AllocatedOutput {
  import opened FinancialStructs
  import opened RealSums
  import opened OutputRecords
  import opened BackAllocation
  import opened AllocationLaws
  import opened AllocationFlow

  // ---------- sums of records ----------

  function OutSum(out: seq<OutRec>): real {
    if out == [] then 0.0 else OutSum(out[..|out| - 1]) + out[|out| - 1].loss
  }

  lemma {:induction false} OutSumConcat(a: seq<OutRec>, b: seq<OutRec>)
    ensures OutSum(a + b) == OutSum(a) + OutSum(b)
  {
    if b == [] {
      assert a + b == a;
    } else {
      OutSumConcat(a, b[..|b| - 1]);
      assert (a + b)[..|a + b| - 1] == a + b[..|b| - 1];
    }
  }

  /** Place t of a record's list has an output. */
  predicate Payable(x: LossRec, items: seq<int>, layer: int, xref: map<(int, int), int>, t: nat)
    requires InRange(Indices(x), |items|)
  {
    t < |Indices(x)| && (items[Indices(x)[t]], layer) in xref
  }

  /** What is written for each of the first n places. */
  function Pays(x: LossRec, items: seq<int>, layer: int, xref: map<(int, int), int>, n: nat): (r: seq<real>)
    requires InRange(Indices(x), |items|)
    ensures |r| == n
    ensures forall t: nat :: t < n ==> r[t] == if Payable(x, items, layer, xref, t) then ItemLoss(x, t) else 0.0
  {
    seq(n, t requires 0 <= t < n && InRange(Indices(x), |items|) =>
             if Payable(x, items, layer, xref, t) then ItemLoss(x, t) else 0.0)
  }

  lemma {:induction false} WrittenPays(x: LossRec, items: seq<int>, layer: int, sidx: int, xref: map<(int, int), int>,
                                       n: nat)
    requires InRange(Indices(x), |items|) && n <= |Indices(x)| && NoNegativeItem(x)
    ensures OutSum(Written(x, items, layer, sidx, xref, n)) == Sum(Pays(x, items, layer, xref, n))
  {
    if n > 0 {
      WrittenPays(x, items, layer, sidx, xref, n - 1);
      var before, key := Written(x, items, layer, sidx, xref, n - 1), (items[Indices(x)[n - 1]], layer);
      assert Pays(x, items, layer, xref, n)[..n - 1] == Pays(x, items, layer, xref, n - 1);
      assert Payable(x, items, layer, xref, n - 1) <==> key in xref;
      assert ItemLoss(x, n - 1) >= 0.0;
      if key in xref { OutSumConcat(before, [OutRec(xref[key], sidx, ItemLoss(x, n - 1))]); }
      assert before + [] == before;
    }
  }

  /** Places past the list add nothing. */
  lemma {:induction false} PaysLonger(x: LossRec, items: seq<int>, layer: int, xref: map<(int, int), int>, n: nat)
    requires InRange(Indices(x), |items|) && n >= |Indices(x)|
    ensures Sum(Pays(x, items, layer, xref, n)) == Sum(Pays(x, items, layer, xref, |Indices(x)|))
    decreases n
  {
    if n > |Indices(x)| {
      PaysLonger(x, items, layer, xref, n - 1);
      assert Pays(x, items, layer, xref, n)[..n - 1] == Pays(x, items, layer, xref, n - 1);
    }
  }

  /** What a record of the top level writes in all. */
  function Paid(x: LossRec, items: seq<int>, layer: int, sidx: int, xref: map<(int, int), int>): real
    requires InRange(Indices(x), |items|)
  {
    if Writes(x, sidx) then Sum(Pays(x, items, layer, xref, |Indices(x)|)) else 0.0
  }

  function AllPaid(v: seq<LossRec>, items: seq<int>, layer: int, sidx: int, xref: map<(int, int), int>): (r: seq<real>)
    requires AllInRange(v, |items|)
    ensures |r| == |v| && forall j :: 0 <= j < |v| ==> r[j] == Paid(v[j], items, layer, sidx, xref)
  {
    seq(|v|, j requires 0 <= j < |v| && AllInRange(v, |items|) => Paid(v[j], items, layer, sidx, xref))
  }

  function RecordWritten(x: LossRec, items: seq<int>, layer: int, sidx: int, xref: map<(int, int), int>): seq<OutRec>
    requires InRange(Indices(x), |items|)
  {
    if Writes(x, sidx) then Written(x, items, layer, sidx, xref, |Indices(x)|) else []
  }

  lemma RecordPays(x: LossRec, items: seq<int>, layer: int, sidx: int, xref: map<(int, int), int>)
    requires InRange(Indices(x), |items|) && NoNegativeItem(x)
    ensures OutSum(RecordWritten(x, items, layer, sidx, xref)) == Paid(x, items, layer, sidx, xref)
  {
    WrittenPays(x, items, layer, sidx, xref, |Indices(x)|);
  }

  lemma {:induction false} AllWrittenPays(v: seq<LossRec>, items: seq<int>, layer: int, sidx: int,
                                          xref: map<(int, int), int>, n: nat)
    requires n <= |v| && AllInRange(v, |items|) && forall j :: 0 <= j < |v| ==> NoNegativeItem(v[j])
    ensures OutSum(AllWritten(v, items, layer, sidx, xref, n)) == Sum(AllPaid(v, items, layer, sidx, xref)[..n])
  {
    if n > 0 {
      AllWrittenPays(v, items, layer, sidx, xref, n - 1);
      OutSumConcat(AllWritten(v, items, layer, sidx, xref, n - 1), RecordWritten(v[n - 1], items, layer, sidx, xref));
      RecordPays(v[n - 1], items, layer, sidx, xref);
      assert AllPaid(v, items, layer, sidx, xref)[..n][..n - 1] == AllPaid(v, items, layer, sidx, xref)[..n - 1];
    }
  }

  lemma AllWrittenIsPaid(v: seq<LossRec>, items: seq<int>, layer: int, sidx: int, xref: map<(int, int), int>)
    requires AllInRange(v, |items|) && forall j :: 0 <= j < |v| ==> NoNegativeItem(v[j])
    ensures OutSum(AllWritten(v, items, layer, sidx, xref, |v|)) == Sum(AllPaid(v, items, layer, sidx, xref))
  {
    AllWrittenPays(v, items, layer, sidx, xref, |v|);
    assert AllPaid(v, items, layer, sidx, xref)[..|v|] == AllPaid(v, items, layer, sidx, xref);
  }

  // ---------- what a record has to give ----------

  /** A record of a level after a run, as far as its output goes. */
  ghost predicate Allotting(c: Task, allowzeros: bool, trace: seq<seq<real>>, l: nat, j: nat, x: LossRec)
    requires 1 <= l < |c.vecs| && j < |c.vecs[l]|
  {
    var x0, k := c.vecs[l][j], c.Source(l, j);
    && x.loss == x0.loss >= 0.0 && x.agg_id == x0.agg_id && Indices(x) == Indices(x0)
    && PropsAreShares(c, allowzeros, trace, l, j, x)
    && (c.Found(allowzeros, l, j) ==> k <= |trace| && Basis(c, k - 1, Base(k, c.guls, trace[k - 1])))
  }

  /** So it is at least if it has a loss. */
  ghost predicate AllotsLoss(c: Task, allowzeros: bool, trace: seq<seq<real>>, l: nat, j: nat, x: LossRec)
    requires 1 <= l < |c.vecs| && j < |c.vecs[l]|
  {
    var x0 := c.vecs[l][j];
    && x.loss == x0.loss >= 0.0 && x.agg_id == x0.agg_id && Indices(x) == Indices(x0)
    && (x.loss > 0.0 ==> Allotting(c, allowzeros, trace, l, j, x))
  }

  lemma RunAllots(c: Task, allowzeros: bool, vecs: seq<seq<LossRec>>, trace: seq<seq<real>>, l: nat, j: nat)
    requires c.Given() && Run(c.vecs, c.owners, c.guls, allowzeros, vecs, trace, |c.vecs|)
    requires 1 <= l < |c.vecs| && j < |c.vecs[l]|
    ensures |vecs[l]| == |c.vecs[l]| && Allotting(c, allowzeros, trace, l, j, vecs[l][j])
  {
    RunKeeps(c.vecs, c.owners, c.guls, allowzeros, vecs, trace, l, j);
    RunSource(c, allowzeros, vecs, trace, l, j);
    var k := c.Source(l, j);
    if k >= 1 { RunState(c, allowzeros, vecs, trace, k - 1); }
  }

  /** The proportion at a place is positive exactly if the place gets something. */
  lemma PlaceSign(c: Task, allowzeros: bool, trace: seq<seq<real>>, l: nat, j: nat, x: LossRec, t: nat)
    requires 1 <= l < |c.vecs| && j < |c.vecs[l]| && Allotting(c, allowzeros, trace, l, j, x)
    ensures PropValue(x, t) >= 0.0 && (PropValue(x, t) > 0.0 <==> c.Gets(allowzeros, l, j, t))
  {
    if c.Found(allowzeros, l, j) {
      var k := c.Source(l, j);
      var base, at := Base(k, c.guls, trace[k - 1]), Indices(c.vecs[k][j]);
      if t < |at| {
        RatioNonNegative(base[at[t]], SumAt(base, at));
        if base[at[t]] == 0.0 { ZeroRatio(SumAt(base, at)); }
      }
    }
  }

  lemma ItemSignAt(c: Task, allowzeros: bool, trace: seq<seq<real>>, l: nat, j: nat, x: LossRec, t: nat)
    requires 1 <= l < |c.vecs| && j < |c.vecs[l]| && Allotting(c, allowzeros, trace, l, j, x)
    ensures ItemLoss(x, t) >= 0.0 && (ItemLoss(x, t) > 0.0 <==> x.loss > 0.0 && c.Gets(allowzeros, l, j, t))
  {
    PlaceSign(c, allowzeros, trace, l, j, x, t);
    ProductSign(x.loss, PropValue(x, t));
  }

  function ItemLosses(x: LossRec, n: nat): (r: seq<real>)
    ensures |r| == n && forall t: nat :: t < n ==> r[t] == ItemLoss(x, t)
  {
    seq(n, t requires 0 <= t => ItemLoss(x, t))
  }

  /** Places without a proportion add nothing. */
  lemma {:induction false} ItemLossesLonger(x: LossRec, n: nat)
    requires x.item_prop.Some? && n >= |x.item_prop.value|
    ensures Sum(ItemLosses(x, n)) == Times(Sum(x.item_prop.value), x.loss)
    decreases n
  {
    var m := |x.item_prop.value|;
    if n == m {
      forall t: nat | t < n ensures ItemLosses(x, n)[t] == Times(x.item_prop.value[t], x.loss) {
        TimesCommutes(x.loss, x.item_prop.value[t]);
      }
      SumScale(x.item_prop.value, ItemLosses(x, n), x.loss);
    } else {
      ItemLossesLonger(x, n - 1);
      TimesZero(x.loss);
      assert ItemLosses(x, n)[..n - 1] == ItemLosses(x, n - 1);
    }
  }

  lemma TimesCommutes(a: real, b: real)
    ensures Times(a, b) == Times(b, a)
  {}

  /** A record that has found shares gives its whole loss to the places of its source's list. */
  lemma ItemLossesAddUp(c: Task, allowzeros: bool, trace: seq<seq<real>>, l: nat, j: nat, x: LossRec, n: nat)
    requires 1 <= l < |c.vecs| && j < |c.vecs[l]| && Allotting(c, allowzeros, trace, l, j, x)
    requires c.Found(allowzeros, l, j) && n >= |Indices(c.vecs[c.Source(l, j)][j])|
    ensures Sum(ItemLosses(x, n)) == x.loss
  {
    var k := c.Source(l, j);
    PropsSumToOne(x.(item_idx := c.vecs[k][j].item_idx), Base(k, c.guls, trace[k - 1]));
    ItemLossesLonger(x, n);
    TimesOne(x.loss);
  }

  // ---------- when a record's loss is written whole ----------

  /** Every place that gets something has an output, and some place does. */
  ghost predicate Whole(c: Task, allowzeros: bool, l: nat, j: nat, items: seq<int>, layer: int,
                        xref: map<(int, int), int>)
    requires 1 <= l < |c.vecs| && j < |c.vecs[l]| && InRange(Indices(c.vecs[l][j]), |items|)
  {
    && c.vecs[l][j].agg_id > 0 && c.Found(allowzeros, l, j)
    && forall t: nat :: c.Gets(allowzeros, l, j, t) ==> Payable(c.vecs[l][j], items, layer, xref, t)
  }

  function Larger(a: nat, b: nat): nat { if a < b then b else a }

  lemma PaidOfFound(c: Task, allowzeros: bool, trace: seq<seq<real>>, l: nat, j: nat, x: LossRec, items: seq<int>,
                    layer: int, xref: map<(int, int), int>)
    requires 1 <= l < |c.vecs| && j < |c.vecs[l]| && Allotting(c, allowzeros, trace, l, j, x)
    requires InRange(Indices(x), |items|) && x.loss > 0.0 && c.Found(allowzeros, l, j)
    ensures var paid := Sum(Pays(x, items, layer, xref, |Indices(x)|));
            paid <= x.loss && (paid == x.loss <==>
                               forall t: nat :: c.Gets(allowzeros, l, j, t) ==> Payable(x, items, layer, xref, t))
  {
    var n := Larger(|Indices(x)|, |Indices(c.vecs[c.Source(l, j)][j])|);
    var all, paid := ItemLosses(x, n), Pays(x, items, layer, xref, n);
    ItemLossesAddUp(c, allowzeros, trace, l, j, x, n);
    PaysLonger(x, items, layer, xref, n);
    forall t: nat | t < n
      ensures 0.0 <= paid[t] <= all[t]
      ensures paid[t] == all[t] <==> (c.Gets(allowzeros, l, j, t) ==> Payable(x, items, layer, xref, t))
    {
      ItemSignAt(c, allowzeros, trace, l, j, x, t);
    }
    SumMonotone(paid, all);
    if t: nat :| c.Gets(allowzeros, l, j, t) && !Payable(x, items, layer, xref, t) {
      assert t < n;
      SumStrict(paid, all, t);
    } else {
      assert paid == all;
    }
  }

  lemma PaidOfNone(c: Task, allowzeros: bool, trace: seq<seq<real>>, l: nat, j: nat, x: LossRec, items: seq<int>,
                   layer: int, xref: map<(int, int), int>)
    requires 1 <= l < |c.vecs| && j < |c.vecs[l]| && Allotting(c, allowzeros, trace, l, j, x)
    requires InRange(Indices(x), |items|) && !c.Found(allowzeros, l, j)
    ensures Sum(Pays(x, items, layer, xref, |Indices(x)|)) == 0.0
  {
    forall t: nat | t < |Indices(x)| ensures ItemLoss(x, t) == 0.0 {
      ItemSignAt(c, allowzeros, trace, l, j, x, t);
    }
    ZeroSum(Pays(x, items, layer, xref, |Indices(x)|));
  }

  /** A record writes at most its loss, and writes all of it exactly if it is whole. */
  lemma PaidLaw(c: Task, allowzeros: bool, trace: seq<seq<real>>, l: nat, j: nat, x: LossRec, items: seq<int>,
                layer: int, sidx: int, xref: map<(int, int), int>)
    requires 1 <= l < |c.vecs| && j < |c.vecs[l]| && AllotsLoss(c, allowzeros, trace, l, j, x)
    requires InRange(Indices(x), |items|)
    ensures Paid(x, items, layer, sidx, xref) <= x.loss
    ensures Paid(x, items, layer, sidx, xref) == x.loss
            <==> WholeIfAny(c, allowzeros, l, j, items, layer, xref)
  {
    assert forall t: nat :: Payable(x, items, layer, xref, t) <==> Payable(c.vecs[l][j], items, layer, xref, t);
    if x.loss == 0.0 {
      PaidOfZero(x, items, layer, xref);
    } else if c.Found(allowzeros, l, j) {
      PaidOfFound(c, allowzeros, trace, l, j, x, items, layer, xref);
    } else {
      PaidOfNone(c, allowzeros, trace, l, j, x, items, layer, xref);
    }
  }

  lemma PaidOfZero(x: LossRec, items: seq<int>, layer: int, xref: map<(int, int), int>)
    requires InRange(Indices(x), |items|) && x.loss == 0.0
    ensures Sum(Pays(x, items, layer, xref, |Indices(x)|)) == 0.0
  {
    forall t: nat | t < |Indices(x)| ensures ItemLoss(x, t) == 0.0 { TimesZero(PropValue(x, t)); }
    ZeroSum(Pays(x, items, layer, xref, |Indices(x)|));
  }

  lemma RunIsClean(c: Task, allowzeros: bool, vecs: seq<seq<LossRec>>, trace: seq<seq<real>>)
    requires c.Given() && Run(c.vecs, c.owners, c.guls, allowzeros, vecs, trace, |c.vecs|) && |c.vecs| >= 2
    ensures var l := |c.vecs| - 1;
            |vecs[l]| == |c.vecs[l]| && AllInRange(vecs[l], |c.guls|) && AllInRange(c.vecs[l], |c.guls|)
            && forall j :: 0 <= j < |vecs[l]| ==> NoNegativeItem(vecs[l][j])
  {
    var l := |c.vecs| - 1;
    RunInRange(c.vecs, c.owners, c.guls, allowzeros, vecs, trace);
    assert InputAt(c.vecs, c.owners, c.guls, l);
    InputInRange(c.vecs[l], c.owners[l], c.guls);
    forall j: nat, t: nat | j < |vecs[l]| ensures ItemLoss(vecs[l][j], t) >= 0.0 {
      RunAllots(c, allowzeros, vecs, trace, l, j);
      ItemSignAt(c, allowzeros, trace, l, j, vecs[l][j], t);
    }
  }

  /** Every record of the top level with a loss writes all of it. */
  ghost predicate AllWhole(c: Task, allowzeros: bool, l: nat, items: seq<int>, layer: int, xref: map<(int, int), int>)
    requires 1 <= l < |c.vecs| && AllInRange(c.vecs[l], |items|)
  {
    forall j: nat :: j < |c.vecs[l]| ==> WholeIfAny(c, allowzeros, l, j, items, layer, xref)
  }

  ghost predicate WholeIfAny(c: Task, allowzeros: bool, l: nat, j: nat, items: seq<int>, layer: int,
                             xref: map<(int, int), int>)
    requires 1 <= l < |c.vecs| && j < |c.vecs[l]| && InRange(Indices(c.vecs[l][j]), |items|)
  {
    c.vecs[l][j].loss > 0.0 ==> Whole(c, allowzeros, l, j, items, layer, xref)
  }

  /**
    Back allocation never writes more than the losses of the top level, and conserves them if and
    only if every record with a loss is whole: shares are found for it, and every item that
    gets a part of it has an output.
  */
  lemma OutputConserves(c: Task, allowzeros: bool, vecs: seq<seq<LossRec>>, trace: seq<seq<real>>, items: seq<int>,
                        layer: int, sidx: int, xref: map<(int, int), int>)
    requires c.Given() && |c.vecs| >= 2 && |items| == |c.guls|
    requires Run(c.vecs, c.owners, c.guls, allowzeros, vecs, trace, |c.vecs|)
    ensures var l := |c.vecs| - 1;
            AllInRange(vecs[l], |items|) && AllInRange(c.vecs[l], |items|)
            && var written := OutSum(AllWritten(vecs[l], items, layer, sidx, xref, |vecs[l]|));
               written <= TotalLoss(c.vecs[l])
               && (written == TotalLoss(c.vecs[l]) <==> AllWhole(c, allowzeros, l, items, layer, xref))
  {
    var l := |c.vecs| - 1;
    RunIsClean(c, allowzeros, vecs, trace);
    forall j: nat | j < |vecs[l]| ensures AllotsLoss(c, allowzeros, trace, l, j, vecs[l][j]) {
      RunAllots(c, allowzeros, vecs, trace, l, j);
    }
    LevelConserves(c, allowzeros, trace, l, vecs[l], items, layer, sidx, xref);
  }

  lemma LevelConserves(c: Task, allowzeros: bool, trace: seq<seq<real>>, l: nat, v: seq<LossRec>, items: seq<int>,
                       layer: int, sidx: int, xref: map<(int, int), int>)
    requires 1 <= l == |c.vecs| - 1 && |v| == |c.vecs[l]| && AllInRange(v, |items|) && AllInRange(c.vecs[l], |items|)
    requires forall j: nat :: j < |v| ==> AllotsLoss(c, allowzeros, trace, l, j, v[j]) && NoNegativeItem(v[j])
    ensures var written := OutSum(AllWritten(v, items, layer, sidx, xref, |v|));
            written <= TotalLoss(c.vecs[l])
            && (written == TotalLoss(c.vecs[l]) <==> AllWhole(c, allowzeros, l, items, layer, xref))
  {
    AllWrittenIsPaid(v, items, layer, sidx, xref);
    TotalIsSum(c.vecs[l]);
    LevelPaid(c, allowzeros, trace, l, v, items, layer, sidx, xref, LossesOf(c.vecs[l]));
  }

  lemma LevelPaid(c: Task, allowzeros: bool, trace: seq<seq<real>>, l: nat, v: seq<LossRec>, items: seq<int>,
                  layer: int, sidx: int, xref: map<(int, int), int>, losses: seq<real>)
    requires 1 <= l == |c.vecs| - 1 && |v| == |c.vecs[l]| && AllInRange(v, |items|) && AllInRange(c.vecs[l], |items|)
    requires forall j: nat :: j < |v| ==> AllotsLoss(c, allowzeros, trace, l, j, v[j])
    requires losses == LossesOf(c.vecs[l])
    ensures var paid := AllPaid(v, items, layer, sidx, xref);
            Sum(paid) <= Sum(losses) && (Sum(paid) == Sum(losses) <==> AllWhole(c, allowzeros, l, items, layer, xref))
  {
    var paid := AllPaid(v, items, layer, sidx, xref);
    forall j: nat | j < |paid|
      ensures paid[j] <= losses[j]
      ensures paid[j] == losses[j] <==> WholeIfAny(c, allowzeros, l, j, items, layer, xref)
    {
      PaidLaw(c, allowzeros, trace, l, j, v[j], items, layer, sidx, xref);
    }
    SumsAgree(paid, losses);
  }

  // ---------- zero-skipping ----------

  /** The level record j of the top level takes its shares from has neither loss nor retained loss there. */
  ghost predicate SourceSkipped(c: Task, l: nat, j: nat)
    requires 1 <= l < |c.vecs| && j < |c.vecs[l]|
  {
    var k := c.Source(l, j);
    k >= 1 && c.vecs[k][j].loss <= 0.0 && c.vecs[k][j].retained_loss <= 0.0
  }

  /** The plain run writes a loss at place t of record j, from shares that zero-skipping never works out. */
  ghost predicate LosesAt(c: Task, l: nat, j: nat, t: nat, items: seq<int>, layer: int, xref: map<(int, int), int>)
    requires 1 <= l < |c.vecs| && j < |c.vecs[l]| && InRange(Indices(c.vecs[l][j]), |items|)
  {
    && c.vecs[l][j].loss > 0.0 && c.vecs[l][j].agg_id > 0 && SourceSkipped(c, l, j)
    && c.Gets(true, l, j, t) && Payable(c.vecs[l][j], items, layer, xref, t)
  }

  ghost predicate Loses(c: Task, l: nat, items: seq<int>, layer: int, xref: map<(int, int), int>)
    requires 1 <= l < |c.vecs| && AllInRange(c.vecs[l], |items|)
  {
    exists j: nat, t: nat :: j < |c.vecs[l]| && LosesAt(c, l, j, t, items, layer, xref)
  }

  /** The same record after the two runs. */
  ghost predicate Twins(c: Task, trace: seq<seq<real>>, l: nat, j: nat, x: LossRec, y: LossRec)
    requires 1 <= l < |c.vecs| && j < |c.vecs[l]|
  {
    Allotting(c, true, trace, l, j, x) && Allotting(c, false, trace, l, j, y)
  }

  /** Zero-skipping gives a place what the plain run does, or nothing. */
  lemma TwinPlace(c: Task, trace: seq<seq<real>>, l: nat, j: nat, x: LossRec, y: LossRec, t: nat)
    requires 1 <= l < |c.vecs| && j < |c.vecs[l]| && Twins(c, trace, l, j, x, y)
    ensures 0.0 <= ItemLoss(y, t) <= ItemLoss(x, t)
    ensures ItemLoss(y, t) == ItemLoss(x, t) <==> !(x.loss > 0.0 && SourceSkipped(c, l, j) && c.Gets(true, l, j, t))
  {
    ItemSignAt(c, true, trace, l, j, x, t);
    ItemSignAt(c, false, trace, l, j, y, t);
    if c.Found(false, l, j) { assert x.item_prop == y.item_prop; }
  }

  lemma TwinsPaid(c: Task, trace: seq<seq<real>>, l: nat, j: nat, x: LossRec, y: LossRec, items: seq<int>,
                  layer: int, sidx: int, xref: map<(int, int), int>)
    requires 1 <= l < |c.vecs| && j < |c.vecs[l]| && Twins(c, trace, l, j, x, y) && InRange(Indices(x), |items|)
    ensures Paid(y, items, layer, sidx, xref) <= Paid(x, items, layer, sidx, xref)
    ensures (exists t: nat :: LosesAt(c, l, j, t, items, layer, xref)) ==>
              Paid(y, items, layer, sidx, xref) < Paid(x, items, layer, sidx, xref)
  {
    var n := |Indices(x)|;
    var more, less := Pays(x, items, layer, xref, n), Pays(y, items, layer, xref, n);
    forall t: nat | t < n
      ensures less[t] <= more[t] && (LosesAt(c, l, j, t, items, layer, xref) ==> less[t] < more[t])
    {
      TwinPlace(c, trace, l, j, x, y, t);
    }
    SumMonotone(less, more);
    if t: nat :| LosesAt(c, l, j, t, items, layer, xref) { SumStrict(less, more, t); }
  }

  /** Records that give the same to every place with an output write the same. */
  lemma {:induction false} WrittenSame(x: LossRec, y: LossRec, items: seq<int>, layer: int, sidx: int,
                                       xref: map<(int, int), int>, n: nat)
    requires Indices(x) == Indices(y) && InRange(Indices(x), |items|) && n <= |Indices(x)|
    requires forall t: nat :: t < n && Payable(x, items, layer, xref, t) ==> ItemLoss(x, t) == ItemLoss(y, t)
    ensures Written(x, items, layer, sidx, xref, n) == Written(y, items, layer, sidx, xref, n)
  {
    if n > 0 {
      WrittenSame(x, y, items, layer, sidx, xref, n - 1);
      assert Payable(x, items, layer, xref, n - 1) <==> (items[Indices(x)[n - 1]], layer) in xref;
    }
  }

  lemma TwinsWrite(c: Task, trace: seq<seq<real>>, l: nat, j: nat, x: LossRec, y: LossRec, items: seq<int>,
                   layer: int, sidx: int, xref: map<(int, int), int>)
    requires 1 <= l < |c.vecs| && j < |c.vecs[l]| && Twins(c, trace, l, j, x, y) && InRange(Indices(x), |items|)
    requires forall t: nat :: !LosesAt(c, l, j, t, items, layer, xref)
    ensures Writes(x, sidx) == Writes(y, sidx)
    ensures Writes(x, sidx) ==> Written(x, items, layer, sidx, xref, |Indices(x)|)
                                == Written(y, items, layer, sidx, xref, |Indices(y)|)
  {
    if Writes(x, sidx) {
      forall t: nat | t < |Indices(x)| && Payable(x, items, layer, xref, t) ensures ItemLoss(x, t) == ItemLoss(y, t) {
        TwinPlace(c, trace, l, j, x, y, t);
        assert Payable(c.vecs[l][j], items, layer, xref, t) && !LosesAt(c, l, j, t, items, layer, xref);
      }
      WrittenSame(x, y, items, layer, sidx, xref, |Indices(x)|);
    }
  }

  lemma {:induction false} AllWrittenSame(v: seq<LossRec>, w: seq<LossRec>, items: seq<int>, layer: int, sidx: int,
                                          xref: map<(int, int), int>, n: nat)
    requires n <= |v| == |w| && AllInRange(v, |items|) && AllInRange(w, |items|)
    requires forall j: nat :: j < n ==> Writes(v[j], sidx) == Writes(w[j], sidx)
    requires forall j: nat :: j < n && Writes(v[j], sidx) ==>
               Written(v[j], items, layer, sidx, xref, |Indices(v[j])|)
               == Written(w[j], items, layer, sidx, xref, |Indices(w[j])|)
    ensures AllWritten(v, items, layer, sidx, xref, n) == AllWritten(w, items, layer, sidx, xref, n)
  {
    if n > 0 { AllWrittenSame(v, w, items, layer, sidx, xref, n - 1); }
  }

  lemma TwinsOfRuns(c: Task, plain: seq<seq<LossRec>>, plainTrace: seq<seq<real>>, skipping: seq<seq<LossRec>>,
                    skippingTrace: seq<seq<real>>, l: nat, j: nat)
    requires c.Given() && 1 <= l < |c.vecs| && j < |c.vecs[l]|
    requires Run(c.vecs, c.owners, c.guls, true, plain, plainTrace, |c.vecs|)
    requires Run(c.vecs, c.owners, c.guls, false, skipping, skippingTrace, |c.vecs|)
    ensures j < |plain[l]| && j < |skipping[l]| && Twins(c, plainTrace, l, j, plain[l][j], skipping[l][j])
  {
    RunAllots(c, true, plain, plainTrace, l, j);
    RunAllots(c, false, skipping, skippingTrace, l, j);
    forall m: nat | m < |c.vecs| ensures plainTrace[m] == skippingTrace[m] {
      SkippingKeepsShares(c, plain, plainTrace, skipping, skippingTrace, m);
    }
    assert plainTrace == skippingTrace;
  }

  /** Where zero-skipping loses something, its records add up to less. */
  lemma SkippingLoses(c: Task, plain: seq<seq<LossRec>>, plainTrace: seq<seq<real>>, skipping: seq<seq<LossRec>>,
                      skippingTrace: seq<seq<real>>, items: seq<int>, layer: int, sidx: int, xref: map<(int, int), int>,
                      j: nat, t: nat)
    requires c.Given() && |c.vecs| >= 2 && |items| == |c.guls|
    requires Run(c.vecs, c.owners, c.guls, true, plain, plainTrace, |c.vecs|)
    requires Run(c.vecs, c.owners, c.guls, false, skipping, skippingTrace, |c.vecs|)
    requires var l := |c.vecs| - 1;
             j < |c.vecs[l]| && InRange(Indices(c.vecs[l][j]), |items|) && LosesAt(c, l, j, t, items, layer, xref)
    ensures var l := |c.vecs| - 1;
            AllInRange(plain[l], |items|) && AllInRange(skipping[l], |items|)
            && OutSum(AllWritten(skipping[l], items, layer, sidx, xref, |skipping[l]|))
               < OutSum(AllWritten(plain[l], items, layer, sidx, xref, |plain[l]|))
  {
    var l := |c.vecs| - 1;
    RunIsClean(c, true, plain, plainTrace);
    RunIsClean(c, false, skipping, skippingTrace);
    forall i: nat | i < |c.vecs[l]| ensures Twins(c, plainTrace, l, i, plain[l][i], skipping[l][i]) {
      TwinsOfRuns(c, plain, plainTrace, skipping, skippingTrace, l, i);
    }
    TwinLevel(c, plainTrace, l, plain[l], skipping[l], items, layer, sidx, xref, j, t);
  }

  lemma TwinLevel(c: Task, trace: seq<seq<real>>, l: nat, v: seq<LossRec>, w: seq<LossRec>, items: seq<int>,
                  layer: int, sidx: int, xref: map<(int, int), int>, j: nat, t: nat)
    requires 1 <= l < |c.vecs| && |v| == |w| == |c.vecs[l]| && AllInRange(v, |items|) && AllInRange(w, |items|)
    requires forall i :: 0 <= i < |v| ==> NoNegativeItem(v[i]) && NoNegativeItem(w[i])
    requires forall i: nat :: i < |v| ==> Twins(c, trace, l, i, v[i], w[i])
    requires j < |v| && InRange(Indices(c.vecs[l][j]), |items|) && LosesAt(c, l, j, t, items, layer, xref)
    ensures OutSum(AllWritten(w, items, layer, sidx, xref, |w|)) < OutSum(AllWritten(v, items, layer, sidx, xref, |v|))
  {
    AllWrittenIsPaid(v, items, layer, sidx, xref);
    AllWrittenIsPaid(w, items, layer, sidx, xref);
    TwinsAllPaid(c, trace, l, v, w, items, layer, sidx, xref, j, t);
  }

  lemma TwinsAllPaid(c: Task, trace: seq<seq<real>>, l: nat, v: seq<LossRec>, w: seq<LossRec>, items: seq<int>,
                     layer: int, sidx: int, xref: map<(int, int), int>, j: nat, t: nat)
    requires 1 <= l < |c.vecs| && |v| == |w| == |c.vecs[l]| && AllInRange(v, |items|) && AllInRange(w, |items|)
    requires forall i: nat :: i < |v| ==> Twins(c, trace, l, i, v[i], w[i])
    requires j < |v| && InRange(Indices(c.vecs[l][j]), |items|) && LosesAt(c, l, j, t, items, layer, xref)
    ensures Sum(AllPaid(w, items, layer, sidx, xref)) < Sum(AllPaid(v, items, layer, sidx, xref))
  {
    forall i: nat | i < |v|
      ensures Paid(w[i], items, layer, sidx, xref) <= Paid(v[i], items, layer, sidx, xref)
      ensures i == j ==> Paid(w[i], items, layer, sidx, xref) < Paid(v[i], items, layer, sidx, xref)
    {
      TwinsPaid(c, trace, l, i, v[i], w[i], items, layer, sidx, xref);
    }
    SumStrict(AllPaid(w, items, layer, sidx, xref), AllPaid(v, items, layer, sidx, xref), j);
  }

  /**
    Zero-skipping refines the plain run if and only if no loss of the top level is written from
    shares that belong to a record without loss or retained loss.
  */
  lemma SkippingRefines(c: Task, plain: seq<seq<LossRec>>, plainTrace: seq<seq<real>>, skipping: seq<seq<LossRec>>,
                        skippingTrace: seq<seq<real>>, items: seq<int>, layer: int, sidx: int,
                        xref: map<(int, int), int>)
    requires c.Given() && |c.vecs| >= 2 && |items| == |c.guls|
    requires Run(c.vecs, c.owners, c.guls, true, plain, plainTrace, |c.vecs|)
    requires Run(c.vecs, c.owners, c.guls, false, skipping, skippingTrace, |c.vecs|)
    ensures var l := |c.vecs| - 1;
            AllInRange(plain[l], |items|) && AllInRange(skipping[l], |items|) && AllInRange(c.vecs[l], |items|)
            && (AllWritten(plain[l], items, layer, sidx, xref, |plain[l]|)
                == AllWritten(skipping[l], items, layer, sidx, xref, |skipping[l]|)
                <==> !Loses(c, l, items, layer, xref))
  {
    var l := |c.vecs| - 1;
    RunIsClean(c, true, plain, plainTrace);
    RunIsClean(c, false, skipping, skippingTrace);
    if j: nat, t: nat :| j < |c.vecs[l]| && LosesAt(c, l, j, t, items, layer, xref) {
      SkippingLoses(c, plain, plainTrace, skipping, skippingTrace, items, layer, sidx, xref, j, t);
    } else {
      forall j: nat | j < |plain[l]|
        ensures Writes(plain[l][j], sidx) == Writes(skipping[l][j], sidx)
        ensures Writes(plain[l][j], sidx) ==>
                  Written(plain[l][j], items, layer, sidx, xref, |Indices(plain[l][j])|)
                  == Written(skipping[l][j], items, layer, sidx, xref, |Indices(skipping[l][j])|)
      {
        TwinsOfRuns(c, plain, plainTrace, skipping, skippingTrace, l, j);
        TwinsWrite(c, plainTrace, l, j, plain[l][j], skipping[l][j], items, layer, sidx, xref);
      }
      AllWrittenSame(plain[l], skipping[l], items, layer, sidx, xref, |plain[l]|);
    }
  }

  // ---------- a single level ----------

  /** At level 1 allocation rules 1 and 2 write the same, with or without zero-skipping. */
  lemma RulesAgree(c: Task, allowzeros: bool, vecs: seq<seq<LossRec>>, trace: seq<seq<real>>, items: seq<int>,
                   layer: int, sidx: int, xref: map<(int, int), int>)
    requires c.Given() && |c.vecs| == 2 && |items| == |c.guls|
    requires Run(c.vecs, c.owners, c.guls, allowzeros, vecs, trace, 2)
    ensures AllInRange(c.vecs[1], |items|) && AllInRange(vecs[1], |items|)
    ensures AllWritten(AllByGuls(c.vecs[1], c.guls), items, layer, sidx, xref, |c.vecs[1]|)
            == AllWritten(vecs[1], items, layer, sidx, xref, |vecs[1]|)
  {
    RunIsClean(c, allowzeros, vecs, trace);
    var v, w := AllByGuls(c.vecs[1], c.guls), vecs[1];
    forall j: nat | j < |v|
      ensures Writes(v[j], sidx) == Writes(w[j], sidx)
      ensures Written(v[j], items, layer, sidx, xref, |Indices(v[j])|)
              == Written(w[j], items, layer, sidx, xref, |Indices(w[j])|)
    {
      RunKeeps(c.vecs, c.owners, c.guls, allowzeros, vecs, trace, 1, j);
      forall t: nat | t < |Indices(v[j])| ensures ItemLoss(v[j], t) == ItemLoss(w[j], t) {
        RecordAgrees(c, allowzeros, vecs, trace, j, t);
      }
      WrittenSame(v[j], w[j], items, layer, sidx, xref, |Indices(v[j])|);
    }
    AllWrittenSame(v, w, items, layer, sidx, xref, |v|);
  }

  lemma ByGulsAllots(c: Task, allowzeros: bool, j: nat)
    requires c.Given() && |c.vecs| == 2 && j < |c.vecs[1]| && InRange(Indices(c.vecs[1][j]), |c.guls|)
    ensures AllotsLoss(c, allowzeros, [Zeros(|c.guls|)], 1, j, ByGuls(c.vecs[1][j], c.guls))
    ensures NoNegativeItem(ByGuls(c.vecs[1][j], c.guls))
  {
    var x := c.vecs[1][j];
    var y, at := ByGuls(x, c.guls), Indices(x);
    LossIsPartOfTotal(c.vecs[1], j);
    assert Basis(c, 0, c.guls);
    BackedSum(c, 1, c.guls, j);
    forall t: nat ensures PropValue(y, t) >= 0.0 && ItemLoss(y, t) >= 0.0 {
      if t < |at| && SumAt(c.guls, at) > 0.0 { RatioNonNegative(c.guls[at[t]], SumAt(c.guls, at)); }
      ProductSign(y.loss, PropValue(y, t));
    }
  }

  /** Allocation rule 1 conserves the losses of a single level on the same condition. */
  lemma ByGulsConserves(c: Task, allowzeros: bool, items: seq<int>, layer: int, sidx: int, xref: map<(int, int), int>)
    requires c.Given() && |c.vecs| == 2 && |items| == |c.guls| && AllInRange(c.vecs[1], |items|)
    ensures var written := OutSum(AllWritten(AllByGuls(c.vecs[1], c.guls), items, layer, sidx, xref, |c.vecs[1]|));
            written <= TotalLoss(c.vecs[1])
            && (written == TotalLoss(c.vecs[1]) <==> AllWhole(c, allowzeros, 1, items, layer, xref))
  {
    var v := AllByGuls(c.vecs[1], c.guls);
    forall j: nat | j < |v|
      ensures AllotsLoss(c, allowzeros, [Zeros(|c.guls|)], 1, j, v[j]) && NoNegativeItem(v[j])
    {
      ByGulsAllots(c, allowzeros, j);
    }
    LevelConserves(c, allowzeros, [Zeros(|c.guls|)], 1, v, items, layer, sidx, xref);
  }

  lemma RecordAgrees(c: Task, allowzeros: bool, vecs: seq<seq<LossRec>>, trace: seq<seq<real>>, j: nat, t: nat)
    requires c.Given() && |c.vecs| == 2 && Run(c.vecs, c.owners, c.guls, allowzeros, vecs, trace, 2)
    requires j < |c.vecs[1]| && InRange(Indices(c.vecs[1][j]), |c.guls|) && t < |Indices(c.vecs[1][j])|
    ensures j < |vecs[1]| && ItemLoss(ByGuls(c.vecs[1][j], c.guls), t) == ItemLoss(vecs[1][j], t)
  {
    var x := c.vecs[1][j];
    RunKeeps(c.vecs, c.owners, c.guls, allowzeros, vecs, trace, 1, j);
    RunState(c, allowzeros, vecs, trace, 1);
    BackedSum(c, 1, c.guls, j);
    PropsOfRun(c, allowzeros, vecs, trace, 1, j);
    LossIsPartOfTotal(c.vecs[1], j);
    TimesZero(PropValue(vecs[1][j], t));
    TimesZero(PropValue(ByGuls(x, c.guls), t));
    if x.loss > 0.0 { assert PropValue(ByGuls(x, c.guls), t) == PropValue(vecs[1][j], t); }
  }

  // ---------- losses with children ----------

  lemma ChildWithLoss(c: Task, parents: seq<seq<nat>>, l: nat, j: nat) returns (i: nat)
    requires 2 <= l < |c.vecs| == |c.owners| == |parents| && ChildrenAt(c.vecs, c.owners, parents, c.guls, l)
    requires j < |c.vecs[l]| && c.vecs[l][j].loss > 0.0
    ensures i < |c.vecs[l - 1]| && i < |parents[l]| && parents[l][i] == j && c.vecs[l - 1][i].loss > 0.0
    ensures |c.owners[l]| == |c.owners[l - 1]|
    ensures forall y :: 0 <= y < |c.owners[l]| && c.owners[l - 1][y] == i ==> c.owners[l][y] == j
  {
    assert HasPositiveChild(c.vecs[l - 1], parents[l], j);
    i :| 0 <= i < |c.vecs[l - 1]| && i < |parents[l]| && parents[l][i] == j && c.vecs[l - 1][i].loss > 0.0;
  }

  /** Under an aggregate with a loss there is an item that has a share, if every loss has a child with a loss. */
  lemma {:induction false} LossHasItem(c: Task, parents: seq<seq<nat>>, l: nat, j: nat) returns (y: nat)
    requires LossesHaveChildren(c.vecs, c.owners, parents, c.guls) && 1 <= l < |c.vecs|
    requires j < |c.vecs[l]| && c.vecs[l][j].loss > 0.0
    ensures y < |c.owners[l]| == |c.guls| && c.owners[l][y] == j && c.Live(l - 1, y) && c.Live(l, y)
  {
    assert ChildrenAt(c.vecs, c.owners, parents, c.guls, l);
    if l == 1 {
      PositiveSum(c.guls, c.owners[1], j);
      y :| y < |c.guls| && c.owners[1][y] == j && c.guls[y] > 0.0;
    } else {
      assert InputAt(c.vecs, c.owners, c.guls, l - 1);
      var i := ChildWithLoss(c, parents, l, j);
      y := LossHasItem(c, parents, l - 1, i);
    }
  }

  /** So its shares are its own, and it is not skipped. */
  lemma LossIsBacked(c: Task, parents: seq<seq<nat>>, l: nat, j: nat, allowzeros: bool)
    requires LossesHaveChildren(c.vecs, c.owners, parents, c.guls) && c.Given() && 1 <= l < |c.vecs|
    requires j < |c.vecs[l]| && c.vecs[l][j].loss > 0.0
    ensures c.Source(l, j) == l && c.Found(allowzeros, l, j) && !SourceSkipped(c, l, j)
  {
    var y := LossHasItem(c, parents, l, j);
    assert InputAt(c.vecs, c.owners, c.guls, l);
    assert Lists(Indices(c.vecs[l][j]), c.owners[l], j);
    var t: nat :| t < |Indices(c.vecs[l][j])| && Indices(c.vecs[l][j])[t] == y;
    LossIsPartOfTotal(c.vecs[l], j);
    assert c.Backed(l, j);
  }

  /** Every item has an output. */
  ghost predicate AllReferenced(items: seq<int>, layer: int, xref: map<(int, int), int>) {
    forall i :: 0 <= i < |items| ==> (items[i], layer) in xref
  }

  /** Records with a loss belong to an aggregate. */
  ghost predicate LossesIdentified(v: seq<LossRec>) { forall j :: 0 <= j < |v| && v[j].loss > 0.0 ==> v[j].agg_id > 0 }

  /** Where every loss has a child with a loss, nothing is lost, with or without zero-skipping. */
  lemma ChildrenSuffice(c: Task, parents: seq<seq<nat>>, allowzeros: bool, items: seq<int>, layer: int,
                        xref: map<(int, int), int>)
    requires LossesHaveChildren(c.vecs, c.owners, parents, c.guls) && c.Given() && |c.vecs| >= 2
    requires AllInRange(c.vecs[|c.vecs| - 1], |items|)
    ensures !Loses(c, |c.vecs| - 1, items, layer, xref)
    ensures AllReferenced(items, layer, xref) && LossesIdentified(c.vecs[|c.vecs| - 1]) ==>
              AllWhole(c, allowzeros, |c.vecs| - 1, items, layer, xref)
  {
    var l := |c.vecs| - 1;
    forall j: nat | j < |c.vecs[l]| && c.vecs[l][j].loss > 0.0
      ensures c.Source(l, j) == l && c.Found(allowzeros, l, j) && !SourceSkipped(c, l, j)
    {
      LossIsBacked(c, parents, l, j, allowzeros);
    }
  }
}
