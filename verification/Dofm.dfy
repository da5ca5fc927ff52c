/**
  dofm: the hierarchy of an event is built, and the samples are calculated on it one after the
  other and allocated back to the items. What holds of every sample of every event.
*/
module Dofm {
  import opened FinancialStructs
  import opened RealSums
  import opened Hierarchy
  import opened FinancialModel
  import opened ProgrammeLaws
  import opened BuiltProgramme
  import opened AllocationLaws
  import opened AllocationFlow
  import opened AllocatedOutput
  import opened RunAllocation
  import OutputRecords
  import BackAllocation

  /** The levels are still to be built; what the input files say of them fits the items of the event. */
  ghost predicate EventFits(programme: Setup, items: seq<int>) {
    && |programme.inputs| == |programme.layers| >= 2 && programme.maxLayer >= 1 && programme.layers[0] == 1
    && (forall l :: 0 <= l < |programme.layers| ==> 1 <= programme.layers[l] <= programme.maxLayer)
    && ProgrammeFits(programme.inputs, items, programme.maxLayer) && Uniform(programme.inputs, items)
    && PoliciesFit(programme, items)
  }

  lemma LevelsFit(programme: Setup, items: seq<int>, levels: seq<Level>)
    requires PoliciesFit(programme, items)
    ensures PoliciesFit(programme.(levels := levels), items)
  {
    var s := programme.(levels := levels);
    forall l, x | 0 <= l < |s.inputs| && 0 <= x < |items| ensures ItemFits(s, l, items[x]) {
      assert ItemFits(programme, l, items[x]);
    }
  }

  /** The sample index written for a set of ground-up losses: insured values, means, and then the samples. */
  function Sidx(gul_idx: nat): int { if gul_idx == 0 then -3 else if gul_idx == 1 then -1 else gul_idx - 1 }

  ghost predicate HasValue(guls: seq<real>) { exists i :: 0 <= i < |guls| && guls[i] > 0.0 }

  method GulHasValue(guls: seq<real>) returns (has: bool)
    ensures has <==> HasValue(guls)
  {
    for i := 0 to |guls|
      invariant !HasValue(guls[..i])
    {
      if guls[i] > 0.0 { return true; }
      assert guls[..i + 1] == guls[..i] + [guls[i]];
    }
    assert guls[..|guls|] == guls;
    return false;
  }

  // ---------- what holds of a sample ----------

  /** No level and layer exceeds the ground-up loss, and each reaches it exactly if its guards say so. */
  ghost predicate Accounted(s: Setup, parents: seq<seq<nat>>, vecs: seq<seq<seq<LossRec>>>, guls: seq<real>) {
    forall level: nat, layer: nat :: OwnPlace(s, level, layer) && PathHandled(s, parents, vecs, level, layer) ==>
      Total(LiveAt(s, vecs, level, layer)) <= Sum(guls)
      && (Total(LiveAt(s, vecs, level, layer)) == Sum(guls) <==> PathKeeps(s, parents, vecs, level, layer))
  }

  /** The items are written no more than the losses of the top level, and all of them exactly if each is whole. */
  ghost predicate Spread(c: Task, allowzeros: bool, items: seq<int>, xref: map<(int, int), int>,
                         out: seq<OutputRecords.OutRec>)
  {
    c.Given() && |c.vecs| >= 2 && OutputRecords.AllInRange(c.vecs[|c.vecs| - 1], |items|)
    && OutSum(out) <= TotalLoss(c.vecs[|c.vecs| - 1])
    && (OutSum(out) == TotalLoss(c.vecs[|c.vecs| - 1]) <==> AllWhole(c, allowzeros, |c.vecs| - 1, items, 1, xref))
  }

  /**
    What is written is the top level, place by place: top are its records with their items'
    proportions. They have the losses, aggregates and items they were calculated with.
  */
  ghost predicate TopWritten(c: Task, items: seq<int>, sidx: int, xref: map<(int, int), int>, top: seq<LossRec>,
                             out: seq<OutputRecords.OutRec>)
  {
    && |c.vecs| >= 2 && |top| == |c.vecs[|c.vecs| - 1]|
    && (forall j :: 0 <= j < |top| ==> SameLoss(top[j], c.vecs[|c.vecs| - 1][j]))
    && OutputRecords.OutputRight(top, items, 1, sidx, xref, out)
  }

  predicate SameLoss(x: LossRec, y: LossRec) {
    x.loss == y.loss && x.agg_id == y.agg_id && OutputRecords.Indices(x) == OutputRecords.Indices(y)
  }

  /** A record of the top level with a loss has the proportions of the level it takes its shares from. */
  ghost predicate TopAllotted(c: Task, allowzeros: bool, trace: seq<seq<real>>, top: seq<LossRec>) {
    && |c.vecs| >= 2 && |top| == |c.vecs[|c.vecs| - 1]|
    && forall j: nat :: j < |top| ==>
         OutputRecords.NoNegativeItem(top[j]) && AllotsLoss(c, allowzeros, trace, |c.vecs| - 1, j, top[j])
  }

  /** How a sample was written: the records of the top level, and the items' proportions after each level. */
  datatype Writing = Writing(top: seq<LossRec>, trace: seq<seq<real>>)

  ghost predicate SampleDone(s: Setup, items: seq<int>, parents: seq<seq<nat>>, owners: seq<seq<nat>>,
                             vecs: seq<seq<seq<LossRec>>>, guls: seq<real>, tivs: seq<real>, sidx: int,
                             allowzeros: bool, xref: map<(int, int), int>, out: seq<OutputRecords.OutRec>, w: Writing)
  {
    && Shaped(s, vecs) && DoneBefore(s, parents, vecs, |s.levels|, 1) && |parents| >= 1
    && Started(At(vecs, 0, 1), guls, tivs, parents[0], s.Nodes(0, 1))
    && TopWritten(TaskOf(vecs, owners, guls), items, sidx, xref, w.top, out)
    && (NonNegative(guls) && NonNegative(tivs) && SensibleTivs(s) ==> Accounted(s, parents, vecs, guls))
    && (NonNegative(guls) && NonNegative(tivs) && LossesNonNegative(vecs) ==>
          Spread(TaskOf(vecs, owners, guls), allowzeros, items, xref, out)
          && TopAllotted(TaskOf(vecs, owners, guls), allowzeros, w.trace, w.top))
  }

  lemma SampleAccounted(s: Setup, items: seq<int>, parents: seq<seq<nat>>, owners: seq<seq<nat>>,
                        vecs: seq<seq<seq<LossRec>>>, guls: seq<real>, tivs: seq<real>)
    requires Calculated(s, items, parents, owners, vecs, guls, tivs) && SensibleTivs(s)
    ensures Accounted(s, parents, vecs, guls)
  {
    forall level: nat, layer: nat | OwnPlace(s, level, layer) && PathHandled(s, parents, vecs, level, layer)
      ensures Total(LiveAt(s, vecs, level, layer)) <= Sum(guls)
      ensures Total(LiveAt(s, vecs, level, layer)) == Sum(guls) <==> PathKeeps(s, parents, vecs, level, layer)
    {
      GroundUpBound(s, parents, vecs, items, guls, tivs, parents[0], level, layer);
    }
  }

  /** What WriteTop has done. */
  ghost predicate Written(c: Task, items: seq<int>, sidx: int, allowzeros: bool, xref: map<(int, int), int>,
                          vecs: seq<seq<LossRec>>, out: seq<OutputRecords.OutRec>, trace: seq<seq<real>>,
                          computed: bool)
  {
    && |c.vecs| >= 2 && |items| == |c.guls|
    && (|c.vecs| > 2 ==>
          BackAllocation.Progress(c.vecs, c.owners, c.guls, allowzeros, items, sidx, xref, |c.vecs[|c.vecs| - 1]|,
                                  computed, vecs, trace, out))
    && (|c.vecs| == 2 ==>
          OutputRecords.AllInRange(c.vecs[1], |c.guls|) && vecs == c.vecs
          && var v := BackAllocation.AllByGuls(c.vecs[1], c.guls);
             out == OutputRecords.AllWritten(v, items, 1, sidx, xref, |v|))
  }

  /** Where nothing is to be written there is no loss. */
  lemma NothingSpread(c: Task, items: seq<int>, sidx: int, allowzeros: bool, xref: map<(int, int), int>)
    requires c.Given() && |c.vecs| >= 2 && OutputRecords.AllInRange(c.vecs[|c.vecs| - 1], |items|)
    requires LossesIdentified(c.vecs[|c.vecs| - 1])
    requires !OutputRecords.SomeWrites(c.vecs[|c.vecs| - 1], |c.vecs[|c.vecs| - 1]|, sidx)
    ensures Spread(c, allowzeros, items, xref, [])
  {
    var v := c.vecs[|c.vecs| - 1];
    forall j | 0 <= j < |v| ensures v[j].loss == 0.0 {
      assert !OutputRecords.Writes(v[j], sidx);
    }
    TotalIsSum(v);
    ZeroSum(LossesOf(v));
  }

  lemma WrittenSpread(c: Task, items: seq<int>, sidx: int, allowzeros: bool, xref: map<(int, int), int>,
                      vecs: seq<seq<LossRec>>, out: seq<OutputRecords.OutRec>, trace: seq<seq<real>>, computed: bool)
    requires c.Given() && LossesIdentified(c.vecs[|c.vecs| - 1])
    requires Written(c, items, sidx, allowzeros, xref, vecs, out, trace, computed)
    ensures Spread(c, allowzeros, items, xref, out)
  {
    var l := |c.vecs| - 1;
    assert BackAllocation.InputAt(c.vecs, c.owners, c.guls, l);
    BackAllocation.InputInRange(c.vecs[l], c.owners[l], c.guls);
    if |c.vecs| == 2 {
      ByGulsConserves(c, allowzeros, items, 1, sidx, xref);
    } else if computed {
      OutputConserves(c, allowzeros, vecs, trace, items, 1, sidx, xref);
    } else {
      NothingSpread(c, items, sidx, allowzeros, xref);
    }
  }

  /** The records the output is written from. */
  ghost predicate TopIs(c: Task, vecs: seq<seq<LossRec>>, top: seq<LossRec>) {
    && |c.vecs| >= 2 && |vecs| == |c.vecs|
    && if |c.vecs| > 2 then top == vecs[|vecs| - 1]
       else OutputRecords.AllInRange(c.vecs[1], |c.guls|) && top == BackAllocation.AllByGuls(c.vecs[1], c.guls)
  }

  lemma TopKeeps(c: Task, items: seq<int>, sidx: int, allowzeros: bool, xref: map<(int, int), int>,
                 vecs: seq<seq<LossRec>>, out: seq<OutputRecords.OutRec>, trace: seq<seq<real>>, computed: bool,
                 top: seq<LossRec>)
    requires Written(c, items, sidx, allowzeros, xref, vecs, out, trace, computed) && TopIs(c, vecs, top)
    ensures |top| == |c.vecs[|c.vecs| - 1]| && forall j :: 0 <= j < |top| ==> SameLoss(top[j], c.vecs[|c.vecs| - 1][j])
  {
    if |c.vecs| > 2 && computed {
      forall j: nat | j < |c.vecs[|c.vecs| - 1]|
        ensures j < |top| == |c.vecs[|c.vecs| - 1]| && SameLoss(top[j], c.vecs[|c.vecs| - 1][j])
      {
        BackAllocation.RunKeeps(c.vecs, c.owners, c.guls, allowzeros, vecs, trace, |c.vecs| - 1, j);
      }
      assert BackAllocation.StepAt(c.vecs, c.owners, c.guls, allowzeros, vecs, trace, |c.vecs| - 1);
    }
  }

  /** The proportions of the items that a written sample went by; under rule 1 their ground-up losses are enough. */
  function TraceOf(c: Task, trace: seq<seq<real>>): seq<seq<real>> {
    if |c.vecs| > 2 then trace else [Zeros(|c.guls|)]
  }

  lemma TopAllots(c: Task, items: seq<int>, sidx: int, allowzeros: bool, xref: map<(int, int), int>,
                  vecs: seq<seq<LossRec>>, out: seq<OutputRecords.OutRec>, trace: seq<seq<real>>, computed: bool,
                  top: seq<LossRec>)
    requires c.Given() && LossesIdentified(c.vecs[|c.vecs| - 1])
    requires Written(c, items, sidx, allowzeros, xref, vecs, out, trace, computed) && TopIs(c, vecs, top)
    ensures TopAllotted(c, allowzeros, TraceOf(c, trace), top)
  {
    TopKeeps(c, items, sidx, allowzeros, xref, vecs, out, trace, computed, top);
    forall j: nat | j < |top|
      ensures OutputRecords.NoNegativeItem(top[j])
              && AllotsLoss(c, allowzeros, TraceOf(c, trace), |c.vecs| - 1, j, top[j])
    {
      if |c.vecs| == 2 {
        ByGulsAllots(c, allowzeros, j);
      } else if computed {
        RunIsClean(c, allowzeros, vecs, trace);
        RunAllots(c, allowzeros, vecs, trace, |c.vecs| - 1, j);
      } else {
        NothingToAllot(c, sidx, j);
      }
    }
  }

  lemma NothingToAllot(c: Task, sidx: int, j: nat)
    requires c.Given() && |c.vecs| >= 2 && LossesIdentified(c.vecs[|c.vecs| - 1]) && j < |c.vecs[|c.vecs| - 1]|
    requires !OutputRecords.SomeWrites(c.vecs[|c.vecs| - 1], |c.vecs[|c.vecs| - 1]|, sidx)
    ensures c.vecs[|c.vecs| - 1][j].loss == 0.0 && OutputRecords.NoNegativeItem(c.vecs[|c.vecs| - 1][j])
  {
    var x := c.vecs[|c.vecs| - 1][j];
    assert !OutputRecords.Writes(x, sidx);
    forall t: nat ensures OutputRecords.ItemLoss(x, t) == 0.0 { TimesZero(PropValue(x, t)); }
  }

  // ---------- back allocation leaves nothing behind that a reset does not clear ----------

  /** Records without a policy are left as they were, the others keep theirs. */
  lemma AllocatedResettable(s: Setup, c: Task, allowzeros: bool, spread: seq<seq<LossRec>>, trace: seq<seq<real>>,
                            l: nat)
    requires BackAllocation.Run(c.vecs, c.owners, c.guls, allowzeros, spread, trace, |c.vecs|) && 1 <= l < |c.vecs|
    requires Resettable(c.vecs[l], s.Nodes(l, 1), s.Size(l))
    ensures Resettable(spread[l], s.Nodes(l, 1), s.Size(l))
  {
    assert BackAllocation.StepAt(c.vecs, c.owners, c.guls, allowzeros, spread, trace, l);
    forall j: nat | j < |spread[l]|
      ensures spread[l][j].policytc_id == c.vecs[l][j].policytc_id && (Idle(c.vecs[l][j]) ==> Idle(spread[l][j]))
    {
      StepLeaves(l, c.vecs[l], spread[l - 1], c.guls, c.owners[l], trace[l - 1], allowzeros, spread[l], trace[l], j);
    }
  }

  lemma StepLeaves(level: nat, v0: seq<LossRec>, prev: seq<LossRec>, guls: seq<real>, owner: seq<nat>,
                   items0: seq<real>, allowzeros: bool, v: seq<LossRec>, items: seq<real>, j: nat)
    requires BackAllocation.LevelStep(level, v0, prev, guls, owner, items0, allowzeros, v, items) && j < |v0|
    ensures v[j].policytc_id == v0[j].policytc_id && (Idle(v0[j]) ==> Idle(v[j]))
  {
    var p := BackAllocation.PreparedAll(v0, guls, allowzeros);
    if !BackAllocation.CopiesDown(v0, prev, allowzeros) {
      assert BackAllocation.RecordStep(level, p, prev, guls, items0, BackAllocation.LossTotal(v0, allowzeros), v, j);
    }
  }

  /** The vectors with those of layer 1 replaced above level 0. */
  function WithFirst(vecs: seq<seq<seq<LossRec>>>, first: seq<seq<LossRec>>): (r: seq<seq<seq<LossRec>>>)
    requires |first| == |vecs| && forall l :: 0 <= l < |vecs| ==> |vecs[l]| >= 2
    ensures |r| == |vecs| && forall l :: 0 <= l < |r| ==> |r[l]| == |vecs[l]|
    ensures forall l: int, k: int :: At(r, l, k) == if 1 <= l < |vecs| && k == 1 then first[l] else At(vecs, l, k)
  {
    seq(|vecs|, l requires 0 <= l < |vecs| && |vecs[l]| >= 2 => if l == 0 then vecs[l] else vecs[l][1 := first[l]])
  }

  lemma StoredResettable(s: Setup, vecs: seq<seq<seq<LossRec>>>, first: seq<seq<LossRec>>)
    requires Shaped(s, vecs) && s.maxLayer >= 1 && |first| == |vecs| && RestResettable(s, vecs, 1, 1)
    requires forall l: nat :: 1 <= l < |vecs| ==> Resettable(first[l], s.Nodes(l, 1), s.Size(l))
    ensures Shaped(s, WithFirst(vecs, first)) && RestResettable(s, WithFirst(vecs, first), 1, 1)
  {
    var after := WithFirst(vecs, first);
    forall l: nat, k: nat | l > 0 && IsPlace(s, l, k) && !Before(l, k, 1, 1)
      ensures Resettable(At(after, l, k), s.Nodes(l, k), s.Size(l))
    {
      assert Resettable(At(vecs, l, k), s.Nodes(l, k), s.Size(l));
    }
  }

  lemma WrittenResettable(s: Setup, c: Task, items: seq<int>, sidx: int, allowzeros: bool, xref: map<(int, int), int>,
                          vecs: seq<seq<LossRec>>, out: seq<OutputRecords.OutRec>, trace: seq<seq<real>>,
                          computed: bool)
    requires Written(c, items, sidx, allowzeros, xref, vecs, out, trace, computed)
    requires forall l: nat :: 1 <= l < |c.vecs| ==> Resettable(c.vecs[l], s.Nodes(l, 1), s.Size(l))
    ensures |vecs| == |c.vecs| && forall l: nat :: 1 <= l < |vecs| ==> Resettable(vecs[l], s.Nodes(l, 1), s.Size(l))
  {
    if |c.vecs| > 2 && computed {
      forall l: nat | 1 <= l < |vecs| ensures Resettable(vecs[l], s.Nodes(l, 1), s.Size(l)) {
        AllocatedResettable(s, c, allowzeros, vecs, trace, l);
      }
    }
  }

  // ---------- the samples of an event ----------

  /** One sample, calculated and written; the next can be run. */
  method DoSample(event: Calculation, items: seq<int>, guls: seq<real>, itemTivs: seq<real>, sidx: int,
                  generalOptimization: bool, xref: map<(int, int), int>, ghost owners: seq<seq<nat>>)
      returns (vecs: seq<seq<seq<LossRec>>>, out: seq<OutputRecords.OutRec>, ghost w: Writing)
    requires event.Valid() && RestResettable(event.s, event.agg_vecs, 1, 1)
    requires AllRight(event.s.inputs, items, event.s.levels, event.parents,
                      owners) && |event.s.levels| == |event.s.inputs| >= 2
    requires ItemsFit(event.s, items, event.parents[0])
    requires forall j :: 0 <= j < event.s.Width(0) ==> j in event.parents[0]
    requires |guls| == |items| == |itemTivs|
    modifies event
    ensures event.Valid() && RestResettable(event.s, event.agg_vecs, 1, 1)
    ensures SampleDone(event.s, items, event.parents, owners, vecs, guls, itemTivs, sidx,
                       !generalOptimization || sidx == -1, xref, out, w)
  {
    event.RunSample(items, guls, itemTivs, event.parents[0]);
    vecs := event.agg_vecs;
    var spread, trace, computed;
    ghost var top;
    spread, out, trace, computed, top :=
      WriteSample(event.s, vecs, guls, items, sidx, generalOptimization, xref, event.parents, owners);
    ghost var allowzeros := BackAllocation.AllowZeros(generalOptimization, sidx);
    w := Writing(top, TraceOf(TaskOf(vecs, owners, guls), trace));
    SampleIsDone(event.s, items, event.parents, owners, vecs, guls, itemTivs, sidx, allowzeros, xref, spread, out,
                 trace, computed, top);
    SampleResettable(event.s, event.parents, owners, vecs, guls, items, sidx, allowzeros, xref, spread, out, trace,
                     computed);
    event.agg_vecs := WithFirst(vecs, spread);
  }

  /** The output of a calculated sample. */
  method WriteSample(s: Setup, vecs: seq<seq<seq<LossRec>>>, guls: seq<real>, items: seq<int>, sidx: int,
                     generalOptimization: bool, xref: map<(int, int), int>, ghost parents: seq<seq<nat>>,
                     ghost owners: seq<seq<nat>>)
      returns (spread: seq<seq<LossRec>>, out: seq<OutputRecords.OutRec>, trace: seq<seq<real>>, computed: bool,
               ghost top: seq<LossRec>)
    requires AllRight(s.inputs, items, s.levels, parents, owners) && |s.levels| == |s.inputs| >= 2 && |guls| == |items|
    requires Fits(s, parents) && Shaped(s, vecs) && DoneBefore(s, parents, vecs, |s.levels|, 1)
    ensures Written(TaskOf(vecs, owners, guls), items, sidx, BackAllocation.AllowZeros(generalOptimization, sidx), xref,
                    spread, out, trace, computed)
    ensures TopIs(TaskOf(vecs, owners, guls), spread, top)
    ensures OutputRecords.OutputRight(top, items, 1, sidx, xref, out)
  {
    CalculatedIsInput(s, items, parents, owners, vecs, guls);
    spread, out, trace, computed, top :=
      BackAllocation.WriteTop(FirstLayers(vecs), guls, items, sidx, generalOptimization, xref, owners);
  }

  lemma SampleResettable(s: Setup, parents: seq<seq<nat>>, owners: seq<seq<nat>>, vecs: seq<seq<seq<LossRec>>>,
                         guls: seq<real>, items: seq<int>, sidx: int, allowzeros: bool, xref: map<(int, int), int>,
                         spread: seq<seq<LossRec>>, out: seq<OutputRecords.OutRec>, trace: seq<seq<real>>,
                         computed: bool)
    requires Fits(s, parents) && Shaped(s, vecs) && RestResettable(s, vecs, 1, 1)
    requires Written(TaskOf(vecs, owners, guls), items, sidx, allowzeros, xref, spread, out, trace, computed)
    ensures |spread| == |vecs| && forall l :: 0 <= l < |vecs| ==> |vecs[l]| >= 2
    ensures Shaped(s, WithFirst(vecs, spread)) && RestResettable(s, WithFirst(vecs, spread), 1, 1)
  {
    FirstResettable(s, parents, vecs);
    WrittenResettable(s, TaskOf(vecs, owners, guls), items, sidx, allowzeros, xref, spread, out, trace, computed);
    StoredResettable(s, vecs, spread);
  }

  lemma FirstResettable(s: Setup, parents: seq<seq<nat>>, vecs: seq<seq<seq<LossRec>>>)
    requires Fits(s, parents) && RestResettable(s, vecs, 1, 1) && Shaped(s, vecs)
    ensures forall l: nat :: 1 <= l < |vecs| ==> Resettable(At(vecs, l, 1), s.Nodes(l, 1), s.Size(l))
  {
    forall l: nat | 1 <= l < |vecs| ensures Resettable(At(vecs, l, 1), s.Nodes(l, 1), s.Size(l)) {
      assert IsPlace(s, l, 1);
    }
  }

  lemma SampleIsDone(s: Setup, items: seq<int>, parents: seq<seq<nat>>, owners: seq<seq<nat>>,
                     vecs: seq<seq<seq<LossRec>>>, guls: seq<real>, tivs: seq<real>, sidx: int, allowzeros: bool,
                     xref: map<(int, int), int>, spread: seq<seq<LossRec>>, out: seq<OutputRecords.OutRec>,
                     trace: seq<seq<real>>, computed: bool, top: seq<LossRec>)
    requires AllRight(s.inputs, items, s.levels, parents, owners) && |s.levels| == |s.inputs| >= 2
    requires Fits(s, parents) && Shaped(s, vecs) && DoneBefore(s, parents, vecs, |s.levels|, 1)
    requires ItemsFit(s, items, parents[0]) && Started(At(vecs, 0, 1), guls, tivs, parents[0], s.Nodes(0, 1))
    requires Written(TaskOf(vecs, owners, guls), items, sidx, allowzeros, xref, spread, out, trace, computed)
    requires TopIs(TaskOf(vecs, owners, guls), spread, top)
    requires OutputRecords.OutputRight(top, items, 1, sidx, xref, out)
    ensures SampleDone(s, items, parents, owners, vecs, guls, tivs, sidx, allowzeros, xref, out,
                       Writing(top, TraceOf(TaskOf(vecs, owners, guls), trace)))
  {
    TopKeeps(TaskOf(vecs, owners, guls), items, sidx, allowzeros, xref, spread, out, trace, computed, top);
    if NonNegative(guls) && NonNegative(tivs) {
      assert Calculated(s, items, parents, owners, vecs, guls, tivs);
      if SensibleTivs(s) { SampleAccounted(s, items, parents, owners, vecs, guls, tivs); }
      if LossesNonNegative(vecs) {
        SampleSpread(s, items, parents, owners, vecs, guls, tivs, sidx, allowzeros, xref, spread, out, trace, computed,
                     top);
      }
    }
  }

  lemma SampleSpread(s: Setup, items: seq<int>, parents: seq<seq<nat>>, owners: seq<seq<nat>>,
                     vecs: seq<seq<seq<LossRec>>>, guls: seq<real>, tivs: seq<real>, sidx: int, allowzeros: bool,
                     xref: map<(int, int), int>, spread: seq<seq<LossRec>>, out: seq<OutputRecords.OutRec>,
                     trace: seq<seq<real>>, computed: bool, top: seq<LossRec>)
    requires Calculated(s, items, parents, owners, vecs, guls, tivs) && LossesNonNegative(vecs)
    requires Written(TaskOf(vecs, owners, guls), items, sidx, allowzeros, xref, spread, out, trace, computed)
    requires TopIs(TaskOf(vecs, owners, guls), spread, top)
    ensures var c := TaskOf(vecs, owners, guls);
            Spread(c, allowzeros, items, xref, out) && TopAllotted(c, allowzeros, TraceOf(c, trace), top)
  {
    CalculatedIsGiven(s, items, parents, owners, vecs, guls, tivs);
    RunIdentified(s, parents, vecs, |vecs| - 1);
    WrittenSpread(TaskOf(vecs, owners, guls), items, sidx, allowzeros, xref, spread, out, trace, computed);
    TopAllots(TaskOf(vecs, owners, guls), items, sidx, allowzeros, xref, spread, out, trace, computed, top);
  }

  /** A sample without losses, apart from the first two, is passed over. */
  ghost predicate PassedOver(gul_idx: nat, guls: seq<real>) {
    gul_idx >= 2 && forall i :: 0 <= i < |guls| ==> guls[i] <= 0.0
  }

  /** What is promised of one sample of the event. */
  ghost predicate SampleAt(s: Setup, items: seq<int>, parents: seq<seq<nat>>, owners: seq<seq<nat>>,
                           event_guls: seq<seq<real>>, tivs: seq<real>, generalOptimization: bool,
                           xref: map<(int, int), int>, runs: seq<seq<seq<seq<LossRec>>>>,
                           outs: seq<seq<OutputRecords.OutRec>>, ws: seq<Writing>, k: nat)
  {
    k < |runs| == |outs| == |ws| <= |event_guls|
    && if PassedOver(k, event_guls[k]) then outs[k] == []
       else
         // insured values are written as sample -3 and means as -1; zero-skipping is off for the means
         SampleDone(s, items, parents, owners, runs[k], event_guls[k], tivs,
                    if k == 0 then -3 else if k == 1 then -1 else k - 1, !generalOptimization || k == 1, xref, outs[k],
                    ws[k])
  }

  lemma SampleStays(s: Setup, items: seq<int>, parents: seq<seq<nat>>, owners: seq<seq<nat>>,
                    event_guls: seq<seq<real>>, tivs: seq<real>, generalOptimization: bool, xref: map<(int, int), int>,
                    runs: seq<seq<seq<seq<LossRec>>>>, outs: seq<seq<OutputRecords.OutRec>>, ws: seq<Writing>,
                    vecs: seq<seq<seq<LossRec>>>, out: seq<OutputRecords.OutRec>, w: Writing, i: nat)
    requires SampleAt(s, items, parents, owners, event_guls, tivs, generalOptimization, xref, runs, outs, ws, i)
    requires |runs| < |event_guls|
    ensures SampleAt(s, items, parents, owners, event_guls, tivs, generalOptimization, xref, runs + [vecs],
                     outs + [out], ws + [w], i)
  {
    assert (runs + [vecs])[i] == runs[i] && (outs + [out])[i] == outs[i] && (ws + [w])[i] == ws[i];
  }

  /**
    A whole event: the hierarchy is built, and every sample is calculated on it and written.
    runs are the vectors of the samples as they are calculated, outs what is written for them.
  */
  method DoFm(programme: Setup, items: seq<int>, event_guls: seq<seq<real>>, itemTivs: seq<real>,
              generalOptimization: bool, xref: map<(int, int), int>)
      returns (s: Setup, runs: seq<seq<seq<seq<LossRec>>>>, outs: seq<seq<OutputRecords.OutRec>>,
               ghost parents: seq<seq<nat>>, ghost owners: seq<seq<nat>>, ghost ws: seq<Writing>)
    requires EventFits(programme, items) && |itemTivs| == |items|
    requires forall k :: 0 <= k < |event_guls| ==> |event_guls[k]| == |items|
    ensures s == programme.(levels := s.levels) && AllRight(s.inputs, items, s.levels, parents, owners)
    ensures Fits(s, parents)
    ensures |runs| == |outs| == |ws| == |event_guls|
    ensures forall k: nat :: k < |event_guls| ==>
              SampleAt(s, items, parents, owners, event_guls, itemTivs, generalOptimization, xref, runs, outs, ws, k)
  {
    var levels;
    levels, parents, owners := BuildHierarchy(programme.inputs, items, programme.maxLayer);
    s := programme.(levels := levels);
    LevelsFit(programme, items, levels);
    BuiltFits(s, items, parents, owners);
    var event := new Calculation(s, parents);
    runs, outs, ws := [], [], [];
    for k := 0 to |event_guls|
      invariant fresh(event) && event.s == s && event.parents == parents
      invariant event.Valid() && RestResettable(s, event.agg_vecs, 1, 1)
      invariant |runs| == |outs| == |ws| == k
      invariant forall i: nat :: i < k ==> SampleAt(s, items, parents, owners, event_guls, itemTivs,
                                                    generalOptimization, xref, runs, outs, ws, i)
    {
      var vecs, out := [], [];
      ghost var w := Writing([], []);
      var has := GulHasValue(event_guls[k]);
      if k < 2 || has {
        vecs, out, w := DoSample(event, items, event_guls[k], itemTivs, Sidx(k), generalOptimization, xref, owners);
      }
      ghost var runs0, outs0, ws0 := runs, outs, ws;
      runs, outs, ws := runs + [vecs], outs + [out], ws + [w];
      forall i: nat | i < k + 1
        ensures SampleAt(s, items, parents, owners, event_guls, itemTivs, generalOptimization, xref, runs, outs, ws, i)
      {
        if i < k {
          SampleStays(s, items, parents, owners, event_guls, itemTivs, generalOptimization, xref, runs0, outs0, ws0,
                      vecs, out, w, i);
        }
      }
    }
  }
}
