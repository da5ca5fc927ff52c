/** Programmes on which a law of the financial module fails, run through the calculation itself. */
module Counterexamples {
  import opened FinancialStructs
  import opened RealSums
  import opened CalcRules
  import opened Hierarchy
  import opened FinancialModel
  import opened ProgrammeLaws
  import opened BuiltProgramme
  import opened OutputRecords
  import opened BackAllocation
  import opened AllocationLaws
  import opened AllocationFlow
  import opened AllocatedOutput
  import opened RunAllocation

  // ---------- zero-skipping loses a loss ----------

  /**
    Two items. At level 1 a percentage of the insured value takes the whole loss of the first,
    and a deductible that is retained the whole loss of the second. Level 2 joins them, and a
    maximum deductible of 17 releases 3 of the 20 taken.
  */
  function Releasing(): Setup {
    Setup([LevelInput([0, 1, 2], [[0], [0, 1], [0, 1]], 2),
           LevelInput([0, 1, 2], [[0], [0, 1], [0, 2]], 2),
           LevelInput([0, 1, 1], [[0], [0, 3]], 1)],
          [Level([[], [PolicyNode(1, 1, [0]), PolicyNode(1, 2, [1])]], [0, 1]),
           Level([[], [PolicyNode(1, 1, [0]), PolicyNode(2, 2, [1])]], [0, 1]),
           Level([[], [PolicyNode(3, 1, [0, 1])]], [0])],
          [1, 1, 1], 1,
          [NoopProfile(), Taking(), Retaining(), Capping()],
          [[0.0, 10.0, 10.0], [0.0, 10.0, 10.0], [0.0, 20.0]], true)
  }

  function Taking(): Profile { Profile(6, 1.0, 0.0, 0.0, 0.0, 0.0, 0.0, 0.0, 0.0) }
  function Retaining(): Profile { Profile(12, 10.0, 0.0, 0.0, 0.0, 0.0, 0.0, 0.0, 0.0) }
  function Capping(): Profile { Profile(10, 0.0, 0.0, 17.0, 0.0, 0.0, 0.0, 0.0, 0.0) }

  const RELEASING_PARENTS: seq<seq<nat>> := [[0, 1], [0, 1], [0, 0]]
  const TWO_ITEMS: seq<int> := [1, 2]
  const TENS: seq<real> := [10.0, 10.0]

  /** It is a programme the calculation can run. */
  lemma ReleasingFits()
    ensures Fits(Releasing(), RELEASING_PARENTS) && ItemsFit(Releasing(), TWO_ITEMS, RELEASING_PARENTS[0])
    ensures forall j :: 0 <= j < Releasing().Width(0) ==> j in RELEASING_PARENTS[0]
  {
    var s := Releasing();
    ReleasingNodes();
    forall l: nat, k: nat | l < |s.layers| && 1 <= k <= s.maxLayer ensures LayerFits(s, l, k) {
      ReleasingLayer(l);
    }
    forall l: nat | 1 <= l < |s.levels| ensures LinkFits(s, l, RELEASING_PARENTS[l]) {
      if l == 1 { ReleasingLink1(); } else { ReleasingLink2(); }
    }
  }

  lemma ReleasingNodes()
    ensures Releasing().Nodes(0, 1) == [PolicyNode(1, 1, [0]), PolicyNode(1, 2, [1])]
    ensures Releasing().Nodes(1, 1) == [PolicyNode(1, 1, [0]), PolicyNode(2, 2, [1])]
    ensures Releasing().Nodes(2, 1) == [PolicyNode(3, 1, [0, 1])]
  {}

  lemma ReleasingLayer(l: nat)
    requires l < 3
    ensures LayerFits(Releasing(), l, 1)
  {
    ReleasingNodes();
  }

  lemma ReleasingLink1()
    ensures LinkFits(Releasing(), 1, [0, 1])
  {
    ReleasingNodes();
    assert Releasing().levels[1].lookup == [0, 1];
    var input := Releasing().inputs[1];
    assert input.pfm == [0, 1, 2] && input.policy_tc == [[0], [0, 1], [0, 2]];
    assert 0 in [0, 1] && 1 in [0, 1];
  }

  lemma ReleasingLink2()
    ensures LinkFits(Releasing(), 2, [0, 0])
  {
    ReleasingNodes();
    assert Releasing().levels[2].lookup == [0];
    var input := Releasing().inputs[2];
    assert input.pfm == [0, 1, 1] && input.policy_tc == [[0], [0, 3]];
    assert 0 in [0, 0];
  }

  lemma SumOfTwo(a: real, b: real, k: nat, m: nat, j: nat)
    ensures SumWhere([a, b], [k, m], j) == (if k == j then a else 0.0) + if m == j then b else 0.0
  {
    assert [a, b][..1] == [a] && [k, m][..1] == [k];
    SumOfOne(a, k, j);
  }

  lemma SumOfOne(a: real, k: nat, j: nat)
    ensures SumWhere([a], [k], j) == if k == j then a else 0.0
  {
    assert [a][..0] == [] && [k][..0] == [];
  }

  lemma ChildrenOfTwo(x: LossRec, y: LossRec, k: nat, m: nat, j: nat, f: Field)
    ensures ChildSum([x, y], [k, m], j, f) == (if k == j then Get(x, f) else 0.0) + if m == j then Get(y, f) else 0.0
  {
    assert Column([x, y], f) == [Get(x, f), Get(y, f)];
    SumOfTwo(Get(x, f), Get(y, f), k, m, j);
  }

  /** What a record of a programme of one layer is, given what is below it. */
  lemma RecordIs(s: Setup, parents: seq<seq<nat>>, vecs: seq<seq<seq<LossRec>>>, l: nat, x: LossRec, y: LossRec, j: nat)
    requires s == Releasing() && parents == RELEASING_PARENTS && DoneBefore(s, parents, vecs, 3, 1)
    requires 1 <= l < 3 && j < s.Width(l) && At(vecs, l - 1, 1) == [x, y]
    ensures |At(vecs, l, 1)| == s.Width(l)
    ensures At(vecs, l, 1)[j] == Applied(s.profiles, Handed(s, l, 1, [x, y], parents[l], s.Nodes(l, 1)[j], 0.0, j), 1)
  {
    assert DoneAt(s, parents, vecs, l, 1);
    assert FeedOf(s, vecs, l, 1) == [x, y];
    assert Processed(s, l, 1, [x, y], parents[l], At(vecs, l, 0), At(vecs, l, 1), j);
  }

  /** A finished sample of the programme, with a ground-up loss of 10 and an insured value of 10 for each item. */
  ghost predicate Released(vecs: seq<seq<seq<LossRec>>>) {
    && Shaped(Releasing(), vecs) && DoneBefore(Releasing(), RELEASING_PARENTS, vecs, 3, 1)
    && Started(At(vecs, 0, 1), TENS, TENS, RELEASING_PARENTS[0], Releasing().Nodes(0, 1))
  }

  lemma ReleasedStart(vecs: seq<seq<seq<LossRec>>>)
    requires Released(vecs)
    ensures |At(vecs, 0, 1)| == 2
    ensures forall j :: 0 <= j < 2 ==>
              At(vecs, 0, 1)[j] == FRESH.(loss := 10.0, accumulated_tiv := 10.0, agg_id := j + 1, policytc_id := 1,
                                          item_idx := Some([j]))
  {
    forall j | 0 <= j < 2
      ensures At(vecs, 0, 1)[j] == FRESH.(loss := 10.0, accumulated_tiv := 10.0, agg_id := j + 1, policytc_id := 1,
                                          item_idx := Some([j]))
    {
      SumOfTwo(10.0, 10.0, 0, 1, j);
      assert TENS[..1] == [10.0] && [0, 1][..1] == [0];
      assert LastTiv(TENS, [0, 1], j) == 10.0;
    }
  }

  lemma ReleasedLevel1(vecs: seq<seq<seq<LossRec>>>)
    requires Released(vecs)
    ensures |At(vecs, 1, 1)| == 2
    ensures var x := At(vecs, 1, 1)[0];
            x.loss == 0.0 && x.retained_loss == 0.0 && x.effective_deductible == 10.0 && x.over_limit == 0.0
            && x.under_limit == 10.0 && x.item_idx == Some([0])
    ensures var y := At(vecs, 1, 1)[1];
            y.loss == 0.0 && y.retained_loss == 10.0 && y.effective_deductible == 10.0 && y.over_limit == 0.0
            && y.under_limit == 10.0 && y.item_idx == Some([1])
  {
    ReleasedStart(vecs);
    var v := At(vecs, 0, 1);
    assert v == [v[0], v[1]];
    RecordIs(Releasing(), RELEASING_PARENTS, vecs, 1, v[0], v[1], 0);
    RecordIs(Releasing(), RELEASING_PARENTS, vecs, 1, v[0], v[1], 1);
    HandedTwo(v[0], v[1], 0);
    HandedTwo(v[0], v[1], 1);
    TakesAll(Handed(Releasing(), 1, 1, [v[0], v[1]], [0, 1], Releasing().Nodes(1, 1)[0], 0.0, 0));
    RetainsAll(Handed(Releasing(), 1, 1, [v[0], v[1]], [0, 1], Releasing().Nodes(1, 1)[1], 0.0, 1));
  }

  /** At level 1 each aggregate is handed the loss of its item. */
  lemma HandedTwo(x: LossRec, y: LossRec, j: nat)
    requires j < 2
    ensures var s, z := Releasing(), if j == 0 then x else y;
            j < |s.Nodes(1, 1)|
            && Handed(s, 1, 1, [x, y], [0, 1], s.Nodes(1, 1)[j], 0.0, j)
               == FRESH.(loss := z.loss, retained_loss := z.retained_loss,
                         effective_deductible := z.effective_deductible,
                         over_limit := z.over_limit, under_limit := z.under_limit, accumulated_tiv := 10.0,
                         agg_id := j + 1, policytc_id := j + 1, item_idx := Some([j]))
  {
    ReleasingNodes();
    assert Releasing().Tiv(1, j + 1) == 10.0;
    forall f: Field ensures ChildSum([x, y], [0, 1], j, f) == Get(if j == 0 then x else y, f) {
      ChildrenOfTwo(x, y, 0, 1, j, f);
    }
  }

  lemma TakesAll(x: LossRec)
    requires x.loss == 10.0 && x.accumulated_tiv == 10.0 && x.policytc_id == 1
    ensures Applied(Releasing().profiles, x, 1)
            == x.(loss := 0.0, effective_deductible := x.effective_deductible + 10.0,
                  under_limit := x.under_limit + 10.0)
  {
    assert Releasing().profiles[1] == Taking();
    assert Times(1.0, 10.0) == 10.0;
  }

  lemma RetainsAll(x: LossRec)
    requires x.loss == 10.0 && x.policytc_id == 2
    ensures Applied(Releasing().profiles, x, 1)
            == x.(loss := 0.0, effective_deductible := x.effective_deductible + 10.0,
                  under_limit := x.under_limit + 10.0,
                  retained_loss := x.retained_loss + 10.0)
  {
    assert Releasing().profiles[2] == Retaining();
  }

  lemma ReleasedLevel2(vecs: seq<seq<seq<LossRec>>>)
    requires Released(vecs)
    ensures |At(vecs, 2, 1)| == 1
    ensures var z := At(vecs, 2, 1)[0];
            z.loss == 3.0 && z.agg_id == 1 && z.item_idx == Some([0, 1])
  {
    ReleasedLevel1(vecs);
    var v := At(vecs, 1, 1);
    assert v == [v[0], v[1]];
    forall f: Field ensures ChildSum([v[0], v[1]], [0, 0], 0, f) == Get(v[0], f) + Get(v[1], f) {
      ChildrenOfTwo(v[0], v[1], 0, 0, 0, f);
    }
    RecordIs(Releasing(), RELEASING_PARENTS, vecs, 2, v[0], v[1], 0);
  }

  // ---------- what back allocation makes of it ----------

  lemma ReleasingPartitions(l: nat)
    requires 1 <= l < 3
    ensures Partitions(Releasing().Nodes(l, 1), RELEASING_PARENTS[l])
  {
    ReleasingNodes();
    if l == 1 {
      assert Lists([0], [0, 1], 0) && Lists([1], [0, 1], 1);
    } else {
      assert Lists([0, 1], [0, 0], 0);
    }
  }

  lemma ReleasedOwned(vecs: seq<seq<seq<LossRec>>>, l: nat)
    requires Released(vecs) && 1 <= l < 3
    ensures Owned(At(vecs, l, 1), RELEASING_PARENTS[l]) && FreshProps(At(vecs, l, 1))
    ensures forall j :: 0 <= j < |At(vecs, l, 1)| ==> At(vecs, l, 1)[j].proportion == 0.0
  {
    var s := Releasing();
    assert DoneAt(s, RELEASING_PARENTS, vecs, l, 1);
    ReleasingPartitions(l);
    CalculatedLevel(s, l, FeedOf(s, vecs, l, 1), RELEASING_PARENTS[l], At(vecs, l, 0), At(vecs, l, 1),
                    RELEASING_PARENTS[l]);
  }

  lemma ReleasedGiven(vecs: seq<seq<seq<LossRec>>>)
    requires Released(vecs)
    ensures TaskOf(vecs, RELEASING_PARENTS, TENS).Given()
  {
    var c := TaskOf(vecs, RELEASING_PARENTS, TENS);
    ReleasedStart(vecs);
    ReleasedLevel1(vecs);
    ReleasedLevel2(vecs);
    forall l: nat | 1 <= l < 3 ensures InputAt(c.vecs, c.owners, c.guls, l) && NonNegativeLosses(c.vecs[l]) {
      ReleasedOwned(vecs, l);
    }
    forall l, j | 0 <= l < |c.vecs| && 0 <= j < |c.vecs[l]| ensures c.vecs[l][j].proportion == 0.0 {
      if l > 0 { ReleasedOwned(vecs, l); }
    }
  }

  lemma TotalOfTwo(x: LossRec, y: LossRec)
    ensures TotalLoss([x, y]) == x.loss + y.loss
    ensures TotalLoss([x]) == x.loss
  {
    var one, two := [x], [x, y];
    assert one[..0] == [] && two[..1] == one;
    assert LossTotal(one, true) == LossTotal(one[..0], true) + x.loss;
  }

  /** The released loss finds its shares at level 1, at the place of a record that is skipped there. */
  lemma ReleasedSource(vecs: seq<seq<seq<LossRec>>>)
    requires Released(vecs)
    ensures var c := TaskOf(vecs, RELEASING_PARENTS, TENS);
            |c.vecs| == 3 && |c.vecs[2]| == 1 && c.Source(2, 0) == 1 && SourceSkipped(c, 2, 0)
            && c.Found(true, 2, 0) && !c.Found(false, 2, 0)
            && forall t: nat :: c.Gets(true, 2, 0, t) <==> t == 0
  {
    var c := TaskOf(vecs, RELEASING_PARENTS, TENS);
    ReleasedLevel1(vecs);
    ReleasedLevel2(vecs);
    var v, z := c.vecs[1], c.vecs[2][0];
    assert v == [v[0], v[1]] && c.vecs[2] == [z];
    TotalOfTwo(v[0], v[1]);
    TotalOfTwo(z, z);
    assert c.Live(0, 0) && Indices(v[0])[0] == 0;
    assert !c.Live(1, 0) && !c.Live(1, 1);
    assert !c.Backed(2, 0) && c.Backed(1, 0);
  }

  /**
    The plain run gives the released loss to the first item, and zero-skipping gives it to
    none: what is written is not the same, and no longer adds up.
  */
  lemma SkippingLosesLoss(vecs: seq<seq<seq<LossRec>>>, plain: seq<seq<LossRec>>, plainTrace: seq<seq<real>>,
                          skipping: seq<seq<LossRec>>, skippingTrace: seq<seq<real>>, sidx: int,
                          xref: map<(int, int), int>)
    requires Released(vecs) && AllReferenced(TWO_ITEMS, 1, xref)
    requires Run(FirstLayers(vecs), RELEASING_PARENTS, TENS, true, plain, plainTrace, 3)
    requires Run(FirstLayers(vecs), RELEASING_PARENTS, TENS, false, skipping, skippingTrace, 3)
    ensures |plain[2]| == |skipping[2]| == 1 && AllInRange(plain[2], 2) && AllInRange(skipping[2], 2)
    ensures ItemLoss(plain[2][0], 0) == 3.0 && ItemLoss(skipping[2][0], 0) == 0.0
    ensures OutSum(AllWritten(plain[2], TWO_ITEMS, 1, sidx, xref, 1)) == TotalLoss(At(vecs, 2, 1))
    ensures OutSum(AllWritten(skipping[2], TWO_ITEMS, 1, sidx, xref, 1)) < TotalLoss(At(vecs, 2, 1))
  {
    var c := TaskOf(vecs, RELEASING_PARENTS, TENS);
    ReleasedGiven(vecs);
    ReleasedLevel1(vecs);
    ReleasedLevel2(vecs);
    ReleasedSource(vecs);
    RunAllots(c, true, plain, plainTrace, 2, 0);
    RunAllots(c, false, skipping, skippingTrace, 2, 0);
    ItemLossesAddUp(c, true, plainTrace, 2, 0, plain[2][0], 1);
    assert ItemLosses(plain[2][0], 1)[..0] == [];
    ItemSignAt(c, false, skippingTrace, 2, 0, skipping[2][0], 0);
    ReleasedWhole(vecs, xref);
    OutputConserves(c, true, plain, plainTrace, TWO_ITEMS, 1, sidx, xref);
    OutputConserves(c, false, skipping, skippingTrace, TWO_ITEMS, 1, sidx, xref);
  }

  lemma ReleasedWhole(vecs: seq<seq<seq<LossRec>>>, xref: map<(int, int), int>)
    requires Released(vecs) && AllReferenced(TWO_ITEMS, 1, xref)
    ensures var c := TaskOf(vecs, RELEASING_PARENTS, TENS);
            |c.vecs| == 3 && AllInRange(c.vecs[2], |TWO_ITEMS|)
            && AllWhole(c, true, 2, TWO_ITEMS, 1, xref) && !AllWhole(c, false, 2, TWO_ITEMS, 1, xref)
  {
    var c := TaskOf(vecs, RELEASING_PARENTS, TENS);
    ReleasedLevel2(vecs);
    ReleasedSource(vecs);
    assert (TWO_ITEMS[0], 1) in xref;
    assert WholeIfAny(c, true, 2, 0, TWO_ITEMS, 1, xref) && !WholeIfAny(c, false, 2, 0, TWO_ITEMS, 1, xref);
  }

  // ---------- a no-op layer breaks the ledger ----------

  /** One item under a level with two layers: the first pays up to 50, the second does nothing. */
  function Layered(): Setup {
    Setup([LevelInput([0, 1], [[0], [0, 1]], 1), LevelInput([0, 1], [[0], [0, 1, 2]], 1)],
          [Level([[], [PolicyNode(1, 1, [0])], []], [0]),
           Level([[], [PolicyNode(1, 1, [0])], [PolicyNode(2, 1, [0])]], [0])],
          [1, 2], 2,
          [NoopProfile(), Profile(2, 0.0, 0.0, 0.0, 0.0, 50.0, 1.0, 0.0, 0.0), NoopProfile()],
          [], false)
  }

  const LAYERED_PARENTS: seq<seq<nat>> := [[0], [0]]

  lemma LayeredFits()
    ensures Fits(Layered(), LAYERED_PARENTS)
  {
    var s := Layered();
    LayeredNodes();
    assert s.layers == [1, 2] && s.Size(0) == 1 == s.Size(1);
    forall l: nat, k: nat | l < |s.layers| && 1 <= k <= s.maxLayer ensures LayerFits(s, l, k) {
      LayeredLayer(l, k);
    }
    forall l: nat | 1 <= l < |s.levels| ensures LinkFits(s, l, LAYERED_PARENTS[l]) { LayeredLink(); }
  }

  lemma LayeredItems()
    ensures ItemsFit(Layered(), [1], LAYERED_PARENTS[0])
    ensures forall j :: 0 <= j < Layered().Width(0) ==> j in LAYERED_PARENTS[0]
  {
    LayeredNodes();
    LayeredItem(Layered().inputs[0], Layered().levels[0].lookup);
  }

  lemma LayeredItem(input: LevelInput, lookup: seq<int>)
    requires input.pfm == [0, 1] && lookup == [0]
    ensures input.Target(1) == 1 && lookup[input.Target(1) - 1] == 0
  {}

  lemma LayeredNodes()
    ensures Layered().Nodes(0, 1) == [PolicyNode(1, 1, [0])] && Layered().Nodes(0, 2) == []
    ensures Layered().Nodes(1, 1) == [PolicyNode(1, 1, [0])] && Layered().Nodes(1, 2) == [PolicyNode(2, 1, [0])]
  {}

  lemma LayeredLayer(l: nat, k: nat)
    requires l < 2 && 1 <= k <= 2
    ensures LayerFits(Layered(), l, k)
  {
    LayeredNodes();
  }

  lemma LayeredLink()
    ensures LinkFits(Layered(), 1, [0])
  {
    LayeredNodes();
    assert Layered().levels[1].lookup == [0];
    var input := Layered().inputs[1];
    assert input.pfm == [0, 1] && input.policy_tc == [[0], [0, 1, 2]];
    assert 0 in [0];
  }

  lemma ChildOfOne(x: LossRec, f: Field)
    ensures ChildSum([x], [0], 0, f) == Get(x, f)
  {
    assert Column([x], f) == [Get(x, f)];
    SumOfOne(Get(x, f), 0, 0);
  }

  lemma LayeredStart(vecs: seq<seq<seq<LossRec>>>)
    requires Started(At(vecs, 0, 1), [100.0], [0.0], [0], Layered().Nodes(0, 1))
    ensures |At(vecs, 0, 1)| == 1 && At(vecs, 0, 1)[0].loss == 100.0 && At(vecs, 0, 1)[0].retained_loss == 0.0
  {
    SumOfOne(100.0, 0, 0);
  }

  /** Of a loss of 100 the two layers pay 150 and retain nothing. */
  lemma NoopBreaksLedger(vecs: seq<seq<seq<LossRec>>>)
    requires Shaped(Layered(), vecs) && DoneBefore(Layered(), LAYERED_PARENTS, vecs, 2, 1)
    requires Started(At(vecs, 0, 1), [100.0], [0.0], [0], Layered().Nodes(0, 1))
    ensures |At(vecs, 1, 1)| == |At(vecs, 1, 2)| == 1
    ensures PaidBy(vecs, 1, 1, 0) == 50.0 && PaidBy(vecs, 1, 2, 0) == 150.0 && At(vecs, 1, 2)[0].retained_loss == 0.0
  {
    var s := Layered();
    LayeredStart(vecs);
    var v := At(vecs, 0, 1);
    assert v == [v[0]];
    forall f: Field ensures ChildSum([v[0]], [0], 0, f) == Get(v[0], f) { ChildOfOne(v[0], f); }
    assert DoneAt(s, LAYERED_PARENTS, vecs, 1, 1) && DoneAt(s, LAYERED_PARENTS, vecs, 1, 2);
    assert FeedOf(s, vecs, 1, 1) == [v[0]] == FeedOf(s, vecs, 1, 2);
    assert Processed(s, 1, 1, [v[0]], [0], At(vecs, 1, 0), At(vecs, 1, 1), 0);
    assert Processed(s, 1, 2, [v[0]], [0], At(vecs, 1, 1), At(vecs, 1, 2), 0);
    TimesOne(50.0);
  }
}
