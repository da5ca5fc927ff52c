/**
  Back allocation of a calculated sample: what a run of the financial module hands to it, and why
  a programme that retains nothing loses nothing in it.
*/
module RunAllocation {
  import opened FinancialStructs
  import opened RealSums
  import opened CalcRules
  import opened Hierarchy
  import opened FinancialModel
  import opened ProgrammeLaws
  import opened BuiltProgramme
  import opened AllocationLaws
  import opened AllocationFlow
  import OutputRecords
  import BackAllocation
  import opened AllocatedOutput

  /** A finished sample on a hierarchy that is right. */
  ghost predicate Calculated(s: Setup, items: seq<int>, parents: seq<seq<nat>>, owners: seq<seq<nat>>,
                             vecs: seq<seq<seq<LossRec>>>, guls: seq<real>, tivs: seq<real>)
  {
    && AllRight(s.inputs, items, s.levels, parents, owners) && |s.levels| == |s.inputs| >= 2
    && Fits(s, parents) && Shaped(s, vecs) && DoneBefore(s, parents, vecs, |s.levels|, 1)
    && StartsFrom(s, vecs, items, guls, tivs, parents[0])
  }

  function TaskOf(vecs: seq<seq<seq<LossRec>>>, owners: seq<seq<nat>>, guls: seq<real>): Task {
    Task(FirstLayers(vecs), owners, guls)
  }

  ghost predicate LossesNonNegative(vecs: seq<seq<seq<LossRec>>>) {
    forall l :: 1 <= l < |vecs| ==> NonNegativeLosses(At(vecs, l, 1))
  }

  /** Losses stay non-negative where the terms on the way up are direct and hand on sound records. */
  lemma HandledNonNegative(s: Setup, items: seq<int>, parents: seq<seq<nat>>, owners: seq<seq<nat>>,
                           vecs: seq<seq<seq<LossRec>>>, guls: seq<real>, tivs: seq<real>)
    requires Calculated(s, items, parents, owners, vecs, guls, tivs) && SensibleTivs(s)
    requires forall l: nat :: 1 <= l < |vecs| ==> PathHandled(s, parents, vecs, l, 1)
    ensures LossesNonNegative(vecs)
  {
    forall l: nat, j: nat | 1 <= l < |vecs| && j < |At(vecs, l, 1)| ensures At(vecs, l, 1)[j].loss >= 0.0 {
      GroundUpBound(s, parents, vecs, items, guls, tivs, parents[0], l, 1);
      FitsHere(s, parents, l, 1);
      assert DoneAt(s, parents, vecs, l, 1);
      DoneIsLive(s, parents, vecs, l, 1);
      if j < s.Width(l) { assert LiveAt(s, vecs, l, 1)[j] == At(vecs, l, 1)[j]; }
    }
  }

  /** A finished sample is what back allocation is to be given. */
  lemma CalculatedIsGiven(s: Setup, items: seq<int>, parents: seq<seq<nat>>, owners: seq<seq<nat>>,
                          vecs: seq<seq<seq<LossRec>>>, guls: seq<real>, tivs: seq<real>)
    requires Calculated(s, items, parents, owners, vecs, guls, tivs) && LossesNonNegative(vecs)
    ensures TaskOf(vecs, owners, guls).Given()
  {
    CalculatedIsInput(s, items, parents, owners, vecs, guls);
    var first: seq<seq<LossRec>> := FirstLayers(vecs);
    forall l: nat, j: nat | l < |first| && j < |first[l]| ensures first[l][j].proportion == 0.0 {
      if l > 0 { assert At(vecs, l, 1)[j].proportion == 0.0; }
    }
  }

  // ---------- owners and parents ----------

  /** The aggregate of an item is the parent of its aggregate one level below. */
  lemma OwnersLinked(s: Setup, items: seq<int>, parents: seq<seq<nat>>, owners: seq<seq<nat>>, l: nat)
    requires AllRight(s.inputs, items, s.levels, parents, owners) && 1 <= l < |s.levels|
    ensures Linked(owners[l - 1], owners[l], parents[l])
  {
    assert RightAt(s.inputs, items, s.levels, parents, owners, l);
    assert RightAt(s.inputs, items, s.levels, parents, owners, l - 1);
    LinkOwners(s.inputs, l, s.levels[l - 1].nodes[1], s.levels[l].nodes[1], s.levels[l].lookup, parents[l],
               owners[l - 1], owners[l], items);
  }

  lemma LinkOwners(inputs: seq<LevelInput>, l: nat, prev: seq<PolicyNode>, base: seq<PolicyNode>, lookup: seq<int>,
                   parent: seq<nat>, below: seq<nat>, above: seq<nat>, items: seq<int>)
    requires l < |inputs| && Hierarchy.Holds(inputs[l], prev, base, parent) && Indexed(base, lookup)
    requires OwnersAre(inputs, l, prev, below, items) && OwnersAre(inputs, l + 1, base, above, items)
    ensures Linked(below, above, parent)
  {
    forall y | 0 <= y < |below| ensures below[y] < |parent| && above[y] == parent[below[y]] {
      assert base[parent[below[y]]].agg_id == inputs[l].Target(prev[below[y]].agg_id) == base[above[y]].agg_id;
    }
  }

  /** At level 0 the owners are the parents of the items themselves. */
  lemma FirstOwners(s: Setup, items: seq<int>, parents: seq<seq<nat>>, owners: seq<seq<nat>>)
    requires AllRight(s.inputs, items, s.levels, parents, owners) && 1 <= |s.levels|
    ensures owners[0] == parents[0]
  {
    assert RightAt(s.inputs, items, s.levels, parents, owners, 0);
    ItemsStart(s.inputs, items);
    LinkOwners(s.inputs, 0, Singles(items), s.levels[0].nodes[1], s.levels[0].lookup, parents[0],
               Identity(|items|), owners[0], items);
  }

  // ---------- the gate ----------

  /** A record that is handed neither loss nor retained loss is left with none. */
  lemma Gate(s: Setup, parents: seq<seq<nat>>, vecs: seq<seq<seq<LossRec>>>, l: nat, j: nat)
    requires Fits(s, parents) && DoneBefore(s, parents, vecs, |s.levels|, 1) && 1 <= l < |s.levels|
    requires j < |At(vecs, l, 1)| && At(vecs, l, 1)[j].loss > 0.0
    ensures |FeedOf(s, vecs, l, 1)| == |parents[l]| && j < s.Width(l)
    ensures ChildSum(FeedOf(s, vecs, l, 1), parents[l], j, Loss) > 0.0
            || ChildSum(FeedOf(s, vecs, l, 1), parents[l], j, Retained) > 0.0
  {
    FitsHere(s, parents, l, 1);
    assert DoneAt(s, parents, vecs, l, 1);
    var v := At(vecs, l, 1);
    assert Processed(s, l, 1, FeedOf(s, vecs, l, 1), parents[l], At(vecs, l, 0), v, j);
  }

  /** No record of the layer 1 vectors retains anything. */
  ghost predicate NothingRetained(vecs: seq<seq<seq<LossRec>>>) {
    forall l, j :: 0 <= l < |vecs| && 0 <= j < |At(vecs, l, 1)| ==> At(vecs, l, 1)[j].retained_loss == 0.0
  }

  /** The rules that retain what they take. */
  predicate Retains(p: Profile) { KeepsLedger(p.calcrule_id) || p.calcrule_id == 12 }

  /** No aggregate has such a rule on layer 1. */
  ghost predicate RetainsNothing(s: Setup) {
    forall l: nat, j: nat :: 1 <= l < |s.levels| && j < s.Width(l) ==> !Retains(ProfileAt(s, l, 1, j))
  }

  lemma RuleRetains(p: Profile, x: LossRec, layer: int)
    requires !Retains(p)
    ensures Rule(p, x, layer).retained_loss == x.retained_loss
  {}

  lemma {:induction false} RetainedLevel(s: Setup, parents: seq<seq<nat>>, vecs: seq<seq<seq<LossRec>>>,
                                         items: seq<int>,
                                         guls: seq<real>, tivs: seq<real>, owner: seq<nat>, l: nat, j: nat)
    requires Fits(s, parents) && DoneBefore(s, parents, vecs, |s.levels|, 1) && RetainsNothing(s)
    requires StartsFrom(s, vecs, items, guls, tivs, owner) && l < |s.levels| && j < |At(vecs, l, 1)|
    ensures At(vecs, l, 1)[j].retained_loss == 0.0
    decreases l
  {
    if l > 0 {
      FitsHere(s, parents, l, 1);
      assert DoneAt(s, parents, vecs, l, 1);
      var below := FeedOf(s, vecs, l, 1);
      if j < s.Width(l) {
        forall i | 0 <= i < |below| ensures below[i].retained_loss == 0.0 {
          RetainedLevel(s, parents, vecs, items, guls, tivs, owner, l - 1, i);
        }
        ZeroSumWhere(Column(below, Retained), parents[l], j);
        RetainedRecord(s, l, below, parents[l], At(vecs, l, 0), At(vecs, l, 1), j);
      } else {
        assert Idle(At(vecs, l, 1)[j]);
      }
    }
  }

  lemma RetainedRecord(s: Setup, l: nat, below: seq<LossRec>, parent: seq<nat>, before: seq<LossRec>, v: seq<LossRec>,
                       j: nat)
    requires Advanced(s, l, 1, below, parent, before, v) && j < s.Width(l)
    requires !Retains(ProfileAt(s, l, 1, j)) && ChildSum(below, parent, j, Retained) == 0.0
    ensures v[j].retained_loss == 0.0
  {
    assert Processed(s, l, 1, below, parent, before, v, j);
    var x := Handed(s, l, 1, below, parent, s.Nodes(l, 1)[j], 0.0, j);
    if 0 < x.policytc_id < |s.profiles| { RuleRetains(s.profiles[x.policytc_id], x, 1); }
  }

  /** A programme without a retaining rule on layer 1 retains nothing there. */
  lemma NoRetention(s: Setup, items: seq<int>, parents: seq<seq<nat>>, owners: seq<seq<nat>>,
                    vecs: seq<seq<seq<LossRec>>>, guls: seq<real>, tivs: seq<real>)
    requires Calculated(s, items, parents, owners, vecs, guls, tivs) && RetainsNothing(s)
    ensures NothingRetained(vecs)
  {
    forall l: nat, j: nat | l < |vecs| && j < |At(vecs, l, 1)| ensures At(vecs, l, 1)[j].retained_loss == 0.0 {
      RetainedLevel(s, parents, vecs, items, guls, tivs, parents[0], l, j);
    }
  }

  // ---------- every loss has a child with a loss ----------

  lemma HandedLoss(s: Setup, parents: seq<seq<nat>>, vecs: seq<seq<seq<LossRec>>>, l: nat, j: nat)
    requires Fits(s, parents) && DoneBefore(s, parents, vecs, |s.levels|, 1) && Shaped(s, vecs)
    requires NothingRetained(vecs) && 1 <= l < |s.levels|
    requires j < |At(vecs, l, 1)| && At(vecs, l, 1)[j].loss > 0.0
    ensures |FeedOf(s, vecs, l, 1)| == |parents[l]| <= |At(vecs, l - 1, 1)|
    ensures FeedOf(s, vecs, l, 1) == At(vecs, l - 1, 1)[..|parents[l]|]
    ensures ChildSum(FeedOf(s, vecs, l, 1), parents[l], j, Loss) > 0.0
  {
    Gate(s, parents, vecs, l, j);
    FitsHere(s, parents, l, 1);
    var below := FeedOf(s, vecs, l, 1);
    forall i | 0 <= i < |below| ensures below[i].retained_loss == 0.0 {
      assert below[i] == At(vecs, l - 1, 1)[i];
    }
    ZeroSumWhere(Column(below, Retained), parents[l], j);
  }

  lemma PositiveChild(below: seq<LossRec>, parent: seq<nat>, j: nat)
    requires |below| == |parent| && NonNegativeLosses(below) && ChildSum(below, parent, j, Loss) > 0.0
    ensures HasPositiveChild(below, parent, j)
  {
    PositiveSum(Column(below, Loss), parent, j);
    var i: nat :| i < |below| && parent[i] == j && Column(below, Loss)[i] > 0.0;
    assert below[i].loss > 0.0;
  }

  lemma ChildrenHere(s: Setup, items: seq<int>, parents: seq<seq<nat>>, owners: seq<seq<nat>>,
                     vecs: seq<seq<seq<LossRec>>>, guls: seq<real>, tivs: seq<real>, l: nat, j: nat)
    requires Calculated(s, items, parents, owners, vecs, guls, tivs) && LossesNonNegative(vecs) && NothingRetained(vecs)
    requires 2 <= l < |vecs| && j < |At(vecs, l, 1)| && At(vecs, l, 1)[j].loss > 0.0
    ensures HasPositiveChild(At(vecs, l - 1, 1), parents[l], j)
  {
    HandedLoss(s, parents, vecs, l, j);
    var v := At(vecs, l - 1, 1);
    assert NonNegativeLosses(v);
    PositiveChild(v[..|parents[l]|], parents[l], j);
    var i :| 0 <= i < |parents[l]| && parents[l][i] == j && v[..|parents[l]|][i].loss > 0.0;
    assert v[i].loss > 0.0;
  }

  /** At level 1 the losses come from the items themselves. */
  lemma ItemsHere(s: Setup, items: seq<int>, parents: seq<seq<nat>>, owners: seq<seq<nat>>,
                  vecs: seq<seq<seq<LossRec>>>, guls: seq<real>, tivs: seq<real>, j: nat)
    requires Calculated(s, items, parents, owners, vecs, guls, tivs) && NothingRetained(vecs)
    requires |vecs| > 1 && j < |At(vecs, 1, 1)| && At(vecs, 1, 1)[j].loss > 0.0
    ensures |owners[1]| == |guls| && SumWhere(guls, owners[1], j) > 0.0
  {
    HandedLoss(s, parents, vecs, 1, j);
    FirstOwners(s, items, parents, owners);
    OwnersLinked(s, items, parents, owners, 1);
    var v := At(vecs, 0, 1);
    FitsHere(s, parents, 1, 1);
    assert v[..|parents[1]|] == v;
    ItemsGrouped(v, guls, tivs, parents[0], s.Nodes(0, 1), parents[1], owners[1], j);
  }

  lemma ItemsGrouped(v: seq<LossRec>, guls: seq<real>, tivs: seq<real>, owner: seq<nat>, nodes: seq<PolicyNode>,
                     parent: seq<nat>, above: seq<nat>, j: nat)
    requires Started(v, guls, tivs, owner, nodes) && |parent| == |v| && Linked(owner, above, parent)
    ensures ChildSum(v, parent, j, Loss) == SumWhere(guls, above, j)
  {
    forall i | 0 <= i < |v| ensures Column(v, Loss)[i] == SumWhere(guls, owner, i) {
      if i !in owner { ZeroSumWhere(guls, owner, i); }
    }
    GroupsCompose(guls, owner, Column(v, Loss), parent, above, j);
  }

  /** If nothing is retained, every loss has a child with a loss, down to the items. */
  lemma RunHasChildren(s: Setup, items: seq<int>, parents: seq<seq<nat>>, owners: seq<seq<nat>>,
                       vecs: seq<seq<seq<LossRec>>>, guls: seq<real>, tivs: seq<real>)
    requires Calculated(s, items, parents, owners, vecs, guls, tivs) && LossesNonNegative(vecs) && NothingRetained(vecs)
    ensures LossesHaveChildren(FirstLayers(vecs), owners, parents, guls)
  {
    CalculatedIsGiven(s, items, parents, owners, vecs, guls, tivs);
    var first: seq<seq<LossRec>> := FirstLayers(vecs);
    forall l: nat | 1 <= l < |first| ensures ChildrenAt(first, owners, parents, guls, l) {
      assert BackAllocation.InputAt(first, owners, guls, l);
      assert NonNegativeLosses(At(vecs, l, 1));
      OwnersLinked(s, items, parents, owners, l);
      ParentsWidth(s, parents, vecs, l);
      forall j: nat | j < |first[l]| && first[l][j].loss > 0.0
        ensures if l == 1 then SumWhere(guls, owners[1], j) > 0.0 else HasPositiveChild(first[l - 1], parents[l], j)
      {
        if l == 1 {
          ItemsHere(s, items, parents, owners, vecs, guls, tivs, j);
        } else {
          ChildrenHere(s, items, parents, owners, vecs, guls, tivs, l, j);
        }
      }
    }
  }

  lemma ParentsWidth(s: Setup, parents: seq<seq<nat>>, vecs: seq<seq<seq<LossRec>>>, l: nat)
    requires Fits(s, parents) && DoneBefore(s, parents, vecs, |s.levels|, 1) && 1 <= l < |s.levels|
    ensures |parents[l]| <= |At(vecs, l - 1, 1)|
  {
    FitsHere(s, parents, l, 1);
    assert DoneAt(s, parents, vecs, l, 1);
    assert DoneAt(s, parents, vecs, l - 1, 1);
    DoneIsLive(s, parents, vecs, l - 1, 1);
  }

  /** A record with a loss belongs to an aggregate of the event. */
  lemma RunIdentified(s: Setup, parents: seq<seq<nat>>, vecs: seq<seq<seq<LossRec>>>, l: nat)
    requires Fits(s, parents) && DoneBefore(s, parents, vecs, |s.levels|, 1) && 1 <= l < |s.levels|
    ensures LossesIdentified(At(vecs, l, 1))
  {
    FitsHere(s, parents, l, 1);
    assert DoneAt(s, parents, vecs, l, 1);
    DoneIsLive(s, parents, vecs, l, 1);
    forall j: nat | j < |At(vecs, l, 1)| && At(vecs, l, 1)[j].loss > 0.0 ensures At(vecs, l, 1)[j].agg_id > 0 {
      Gate(s, parents, vecs, l, j);
    }
  }

  lemma RunIsWhole(s: Setup, items: seq<int>, parents: seq<seq<nat>>, owners: seq<seq<nat>>,
                   vecs: seq<seq<seq<LossRec>>>, guls: seq<real>, tivs: seq<real>, allowzeros: bool,
                   xref: map<(int, int), int>)
    requires Calculated(s, items, parents, owners, vecs, guls, tivs) && LossesNonNegative(vecs) && RetainsNothing(s)
    ensures var c := TaskOf(vecs, owners, guls);
            c.Given() && |c.vecs| == |vecs| >= 2 && |items| == |guls|
            && OutputRecords.AllInRange(c.vecs[|vecs| - 1], |items|) && !Loses(c, |vecs| - 1, items, 1, xref)
            && (AllReferenced(items, 1, xref) ==> AllWhole(c, allowzeros, |c.vecs| - 1, items, 1, xref))
  {
    var c, l := TaskOf(vecs, owners, guls), |vecs| - 1;
    CalculatedIsGiven(s, items, parents, owners, vecs, guls, tivs);
    NoRetention(s, items, parents, owners, vecs, guls, tivs);
    RunHasChildren(s, items, parents, owners, vecs, guls, tivs);
    RunIdentified(s, parents, vecs, l);
    assert BackAllocation.InputAt(c.vecs, owners, guls, l);
    BackAllocation.InputInRange(c.vecs[l], owners[l], guls);
    ChildrenSuffice(c, parents, allowzeros, items, 1, xref);
  }

  /**
    A sample of a programme that retains nothing: back allocation writes the losses of the top
    level in full, and zero-skipping writes the same records.
  */
  lemma RunAllocates(s: Setup, items: seq<int>, parents: seq<seq<nat>>, owners: seq<seq<nat>>,
                     vecs: seq<seq<seq<LossRec>>>, guls: seq<real>, tivs: seq<real>, allowzeros: bool,
                     spread: seq<seq<LossRec>>, trace: seq<seq<real>>, sidx: int, xref: map<(int, int), int>)
    requires Calculated(s, items, parents, owners, vecs, guls, tivs) && LossesNonNegative(vecs) && RetainsNothing(s)
    requires BackAllocation.Run(FirstLayers(vecs), owners, guls, allowzeros, spread, trace, |vecs|)
    requires AllReferenced(items, 1, xref)
    ensures var l := |vecs| - 1;
            OutputRecords.AllInRange(spread[l], |items|)
            && OutSum(OutputRecords.AllWritten(spread[l], items, 1, sidx, xref, |spread[l]|))
               == TotalLoss(At(vecs, l, 1))
  {
    var c := TaskOf(vecs, owners, guls);
    RunIsWhole(s, items, parents, owners, vecs, guls, tivs, allowzeros, xref);
    TaskWrites(c, allowzeros, spread, trace, items, sidx, xref);
  }

  lemma TaskWrites(c: Task, allowzeros: bool, spread: seq<seq<LossRec>>, trace: seq<seq<real>>, items: seq<int>,
                   sidx: int, xref: map<(int, int), int>)
    requires c.Given() && |c.vecs| >= 2 && |items| == |c.guls|
    requires OutputRecords.AllInRange(c.vecs[|c.vecs| - 1], |items|)
    requires BackAllocation.Run(c.vecs, c.owners, c.guls, allowzeros, spread, trace, |c.vecs|)
    requires AllWhole(c, allowzeros, |c.vecs| - 1, items, 1, xref)
    ensures var l := |c.vecs| - 1;
            OutputRecords.AllInRange(spread[l], |items|)
            && OutSum(OutputRecords.AllWritten(spread[l], items, 1, sidx, xref, |spread[l]|)) == TotalLoss(c.vecs[l])
  {
    OutputConserves(c, allowzeros, spread, trace, items, 1, sidx, xref);
  }

  lemma TaskSkips(c: Task, plain: seq<seq<LossRec>>, plainTrace: seq<seq<real>>, skipping: seq<seq<LossRec>>,
                  skippingTrace: seq<seq<real>>, items: seq<int>, sidx: int, xref: map<(int, int), int>)
    requires c.Given() && |c.vecs| >= 2 && |items| == |c.guls|
    requires OutputRecords.AllInRange(c.vecs[|c.vecs| - 1], |items|)
    requires BackAllocation.Run(c.vecs, c.owners, c.guls, true, plain, plainTrace, |c.vecs|)
    requires BackAllocation.Run(c.vecs, c.owners, c.guls, false, skipping, skippingTrace, |c.vecs|)
    requires !Loses(c, |c.vecs| - 1, items, 1, xref)
    ensures var l := |c.vecs| - 1;
            OutputRecords.AllInRange(plain[l], |items|) && OutputRecords.AllInRange(skipping[l], |items|)
            && OutputRecords.AllWritten(plain[l], items, 1, sidx, xref, |plain[l]|)
               == OutputRecords.AllWritten(skipping[l], items, 1, sidx, xref, |skipping[l]|)
  {
    SkippingRefines(c, plain, plainTrace, skipping, skippingTrace, items, 1, sidx, xref);
  }

  /** And with or without zero-skipping the same records are written. */
  lemma RunSkips(s: Setup, items: seq<int>, parents: seq<seq<nat>>, owners: seq<seq<nat>>,
                 vecs: seq<seq<seq<LossRec>>>, guls: seq<real>, tivs: seq<real>, plain: seq<seq<LossRec>>,
                 plainTrace: seq<seq<real>>, skipping: seq<seq<LossRec>>, skippingTrace: seq<seq<real>>, sidx: int,
                 xref: map<(int, int), int>)
    requires Calculated(s, items, parents, owners, vecs, guls, tivs) && LossesNonNegative(vecs) && RetainsNothing(s)
    requires BackAllocation.Run(FirstLayers(vecs), owners, guls, true, plain, plainTrace, |vecs|)
    requires BackAllocation.Run(FirstLayers(vecs), owners, guls, false, skipping, skippingTrace, |vecs|)
    ensures var l := |vecs| - 1;
            OutputRecords.AllInRange(plain[l], |items|) && OutputRecords.AllInRange(skipping[l], |items|)
            && OutputRecords.AllWritten(plain[l], items, 1, sidx, xref, |plain[l]|)
               == OutputRecords.AllWritten(skipping[l], items, 1, sidx, xref, |skipping[l]|)
  {
    var c := TaskOf(vecs, owners, guls);
    RunIsWhole(s, items, parents, owners, vecs, guls, tivs, true, xref);
    TaskSkips(c, plain, plainTrace, skipping, skippingTrace, items, sidx, xref);
  }
}
