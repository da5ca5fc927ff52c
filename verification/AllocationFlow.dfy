/**
  Where back allocation finds something to go by. Which items have a share after each level, and
  which level a record takes its item proportions from, follow from the losses, the retained
  losses and the item lists that back allocation is given; so does what zero-skipping leaves out.
*/
module AllocationFlow {
  import opened FinancialStructs
  import opened RealSums
  import opened OutputRecords
  import opened BackAllocation
  import opened AllocationLaws

  /** What back allocation is given: the layer 1 vectors, who owns the items, and their ground-up losses. */
  datatype Task = Task(vecs: seq<seq<LossRec>>, owners: seq<seq<nat>>, guls: seq<real>) {

    /** No loss is negative, and nothing is allocated yet. */
    ghost predicate Given() {
      && Input(vecs, owners, guls) && NonNegative(guls)
      && (forall l :: 1 <= l < |vecs| ==> NonNegativeLosses(vecs[l]))
      && (forall l, j :: 0 <= l < |vecs| && 0 <= j < |vecs[l]| ==> vecs[l][j].proportion == 0.0)
    }

    /** A level without loss that keeps the shares of the level below. */
    ghost predicate Kept(l: nat)
      requires l < |vecs|
      decreases l, 0
    {
      l >= 2 && TotalLoss(vecs[l]) <= 0.0
      && (TotalLoss(vecs[l - 1]) > 0.0 || (Kept(l - 1) && Portion(l - 1) > 0.01))
    }

    /** Item y has a share after level l; after level 0 it has one if it has a ground-up loss. */
    ghost predicate Live(l: nat, y: nat)
      requires l < |vecs|
      decreases l, 1
    {
      if l == 0 then y < |guls| && guls[y] > 0.0
      else Live(l - 1, y) && (Kept(l) || (l < |owners| && y < |owners[l]| && owners[l][y] < |vecs[l]|
                                          && vecs[l][owners[l][y]].loss > 0.0))
    }

    /** Some item of the record has a share below. */
    ghost predicate Backed(l: nat, j: nat)
      requires 1 <= l < |vecs| && j < |vecs[l]|
      decreases l, 0
    {
      exists t: nat :: t < |Indices(vecs[l][j])| && Live(l - 1, Indices(vecs[l][j])[t])
    }

    /** The losses of those of the first n records that have something to go by. */
    ghost function BackedLoss(l: nat, n: nat): real
      requires 1 <= l < |vecs| && n <= |vecs[l]|
      decreases l, 1, n
    {
      if n == 0 then 0.0
      else BackedLoss(l, n - 1) + if Backed(l, n - 1) then vecs[l][n - 1].loss else 0.0
    }

    /** What the shares of all items add up to after level l. */
    ghost function Portion(l: nat): real
      requires l < |vecs|
      decreases l, 2
    {
      if l == 0 then 0.0
      else if TotalLoss(vecs[l]) > 0.0 then Ratio(BackedLoss(l, |vecs[l]|), TotalLoss(vecs[l]))
      else if Kept(l) then Portion(l - 1) else 0.0
    }

    /** What the proportions of all records of level l add up to. */
    ghost function Allotted(l: nat): real
      requires l < |vecs|
    {
      if l == 0 then 0.0
      else if TotalLoss(vecs[l]) > 0.0 then 1.0
      else if Kept(l) then Portion(l - 1) else 0.0
    }

    /**
      The level whose record at the same place the item proportions of record j come from: its
      own, unless none of its items has a share. 0 if there is none.
    */
    ghost function Source(l: nat, j: nat): (k: nat)
      requires 1 <= l < |vecs| && j < |vecs[l]|
      ensures k <= l && (k >= 1 ==> j < |vecs[k]|)
      decreases l
    {
      if l == 1 || Kept(l) || Backed(l, j) || vecs[l][j].item_idx.None? then l
      else if j < |vecs[l - 1]| then Source(l - 1, j) else 0
    }

    /** There are shares at that level, and the record there is not skipped. */
    ghost predicate Found(allowzeros: bool, l: nat, j: nat)
      requires 1 <= l < |vecs| && j < |vecs[l]|
    {
      var k := Source(l, j);
      k >= 1 && !Kept(k) && Backed(k, j) && Active(vecs[k][j], allowzeros)
    }

    /** So place t of record j gets a part of its loss. */
    ghost predicate Gets(allowzeros: bool, l: nat, j: nat, t: nat)
      requires 1 <= l < |vecs| && j < |vecs[l]|
    {
      var k := Source(l, j);
      Found(allowzeros, l, j) && t < |Indices(vecs[k][j])| && Live(k - 1, Indices(vecs[k][j])[t])
    }
  }

  // ---------- one level ----------

  /** The shares a level goes by belong to the items that are live below it. */
  ghost predicate Basis(c: Task, l: nat, base: seq<real>)
    requires l < |c.vecs|
  {
    |base| == |c.guls| && NonNegative(base) && forall y: nat :: y < |base| ==> (base[y] > 0.0 <==> c.Live(l, y))
  }

  lemma PositiveSum(s: seq<real>, owner: seq<nat>, j: nat)
    requires |s| == |owner| && NonNegative(s)
    ensures SumWhere(s, owner, j) >= 0.0
    ensures SumWhere(s, owner, j) > 0.0 <==> exists y: nat :: y < |s| && owner[y] == j && s[y] > 0.0
  {
    SumWhereNonNegative(s, owner, j);
    if forall y: nat :: y < |s| && owner[y] == j ==> s[y] == 0.0 { ZeroSumWhere(s, owner, j); }
  }

  /** A record's items have something to go by exactly if one of them is live. */
  lemma BackedSum(c: Task, l: nat, base: seq<real>, j: nat)
    requires c.Given() && 1 <= l < |c.vecs| && j < |c.vecs[l]| && Basis(c, l - 1, base)
    ensures |c.owners[l]| == |base| && InRange(Indices(c.vecs[l][j]), |base|)
    ensures SumAt(base, Indices(c.vecs[l][j])) == SumWhere(base, c.owners[l], j) >= 0.0
    ensures SumWhere(base, c.owners[l], j) > 0.0 <==> c.Backed(l, j)
  {
    var at, owner := Indices(c.vecs[l][j]), c.owners[l];
    assert InputAt(c.vecs, c.owners, c.guls, l);
    assert Lists(at, owner, j);
    SumAtIsSumWhere(base, at, owner, j);
    PositiveSum(base, owner, j);
    forall y: nat | y < |base| && owner[y] == j && base[y] > 0.0 ensures c.Backed(l, j) {
      assert y in at && c.Live(l - 1, y);
    }
    if c.Backed(l, j) {
      var t: nat :| t < |at| && c.Live(l - 1, at[t]);
      assert owner[at[t]] == j && base[at[t]] > 0.0;
    }
  }

  lemma ProportionSign(x: LossRec, total: real)
    requires x.loss >= 0.0 && (x.loss > 0.0 ==> total > 0.0)
    ensures ProportionOf(x, total) >= 0.0 && (ProportionOf(x, total) > 0.0 <==> x.loss > 0.0)
  {
    if x.loss > 0.0 { RatioNonNegative(x.loss, total); }
  }

  lemma ClaimedSign(base: seq<real>, y: nat, total: real, p: real)
    requires y < |base| && base[y] >= 0.0 && total > 0.0 && p >= 0.0
    ensures Claimed(base, y, total, p) >= 0.0
    ensures Claimed(base, y, total, p) > 0.0 <==> base[y] > 0.0 && p > 0.0
  {
    ClaimedIsScaled(base, y, total, p);
    RatioNonNegative(p, total);
    ProductSign(base[y], Ratio(p, total));
    if p == 0.0 { ZeroRatio(total); }
  }

  lemma ProductSign(a: real, b: real)
    requires a >= 0.0 && b >= 0.0
    ensures Times(a, b) >= 0.0 && (Times(a, b) > 0.0 <==> a > 0.0 && b > 0.0)
  {}

  /** An item has a share after a level that allocates if it had one below and its aggregate has a loss. */
  lemma ItemSign(level: nat, v: seq<LossRec>, owner: seq<nat>, guls: seq<real>, items0: seq<real>, total: real, y: nat)
    requires y < |owner| == |guls| == |items0| && owner[y] < |v|
    requires v[owner[y]].loss >= 0.0 && (v[owner[y]].loss > 0.0 ==> total > 0.0)
    requires NonNegative(Base(level, guls, items0)) && (Base(level, guls, items0)[y] == 0.0 ==> items0[y] == 0.0)
    ensures ShareOf(level, v, owner, guls, items0, total, y) >= 0.0
    ensures ShareOf(level, v, owner, guls, items0, total, y) > 0.0
            <==> Base(level, guls, items0)[y] > 0.0 && v[owner[y]].loss > 0.0
  {
    var base := Base(level, guls, items0);
    PositiveSum(base, owner, owner[y]);
    ProportionSign(v[owner[y]], total);
    var sum := SumWhere(base, owner, owner[y]);
    if sum > 0.0 { ClaimedSign(base, y, sum, ProportionOf(v[owner[y]], total)); }
  }

  lemma {:induction false} LossIsPartOfTotal(v: seq<LossRec>, j: nat)
    requires NonNegativeLosses(v) && j < |v|
    ensures 0.0 <= v[j].loss <= TotalLoss(v)
  {
    var n := |v| - 1;
    TotalNonNegative(v[..n]);
    if j < n { LossIsPartOfTotal(v[..n], j); }
  }

  lemma {:induction false} TotalNonNegative(v: seq<LossRec>)
    requires NonNegativeLosses(v)
    ensures TotalLoss(v) >= 0.0
  {
    if v != [] { TotalNonNegative(v[..|v| - 1]); }
  }

  /** What a level that allocates does, with the zero-skipping taken out of it. */
  ghost predicate Shares(level: nat, v0: seq<LossRec>, guls: seq<real>, owner: seq<nat>, items0: seq<real>,
                         v: seq<LossRec>, items: seq<real>)
  {
    && |owner| == |guls| == |items0| == |items| && |v| == |v0| && Owned(v0, owner)
    && (forall y: nat :: y < |guls| ==> items[y] == ShareOf(level, v0, owner, guls, items0, TotalLoss(v0), y))
    && (forall j: nat :: j < |v| ==> v[j].proportion == ProportionOf(v0[j], TotalLoss(v0)))
  }

  lemma StepShareOf(level: nat, v0: seq<LossRec>, prev: seq<LossRec>, guls: seq<real>, owner: seq<nat>,
                    items0: seq<real>, allowzeros: bool, v: seq<LossRec>, items: seq<real>)
    requires LevelStep(level, v0, prev, guls, owner, items0, allowzeros, v, items) && NonNegativeLosses(v0)
    requires !CopiesDown(v0, prev, allowzeros)
    ensures Shares(level, v0, guls, owner, items0, v, items)
  {
    SkippingKeepsTotal(v0, allowzeros);
    var p := PreparedAll(v0, guls, allowzeros);
    forall y: nat | y < |guls| ensures items[y] == ShareOf(level, v0, owner, guls, items0, TotalLoss(v0), y) {
      assert ItemStep(level, p, owner, guls, items0, TotalLoss(v0), items, y);
    }
    forall j: nat | j < |v| ensures v[j].proportion == ProportionOf(v0[j], TotalLoss(v0)) {
      assert RecordStep(level, p, prev, guls, items0, TotalLoss(v0), v, j);
    }
  }

  lemma SharesBasis(c: Task, l: nat, items0: seq<real>, v: seq<LossRec>, items: seq<real>)
    requires c.Given() && 1 <= l < |c.vecs| && !c.Kept(l)
    requires |items0| == |c.guls| && Basis(c, l - 1, Base(l, c.guls, items0)) && (l == 1 ==> items0 == Zeros(|c.guls|))
    requires Shares(l, c.vecs[l], c.guls, c.owners[l], items0, v, items)
    ensures Basis(c, l, items)
  {
    var v0, owner := c.vecs[l], c.owners[l];
    forall y: nat | y < |items| ensures items[y] >= 0.0 && (items[y] > 0.0 <==> c.Live(l, y)) {
      LossIsPartOfTotal(v0, owner[y]);
      ItemSign(l, v0, owner, c.guls, items0, TotalLoss(v0), y);
      assert Base(l, c.guls, items0)[y] > 0.0 <==> c.Live(l - 1, y);
    }
  }

  // ---------- what shares and proportions add up to ----------

  function Proportions(v: seq<LossRec>): (r: seq<real>)
    ensures |r| == |v| && forall j :: 0 <= j < |v| ==> r[j] == v[j].proportion
  {
    if v == [] then [] else Proportions(v[..|v| - 1]) + [v[|v| - 1].proportion]
  }

  lemma {:induction false} ProportionsAddUp(v: seq<LossRec>)
    ensures ProportionTotal(v) == Sum(Proportions(v))
  {
    if v != [] {
      ProportionsAddUp(v[..|v| - 1]);
      SumSnoc(Proportions(v[..|v| - 1]), v[|v| - 1].proportion);
    }
  }

  /** Parts of a loss, as parts of a total: the sum is the part the sum is. */
  lemma {:induction false} RatiosAddUp(parts: seq<real>, props: seq<real>, total: real)
    requires |parts| == |props| && total > 0.0 && forall j :: 0 <= j < |parts| ==> props[j] == Ratio(parts[j], total)
    ensures Sum(props) == Ratio(Sum(parts), total)
  {
    if parts == [] {
      ZeroRatio(total);
    } else {
      var n := |parts| - 1;
      RatiosAddUp(parts[..n], props[..n], total);
      RatioAdds(Sum(parts[..n]), parts[n], total);
    }
  }

  function LossesOf(v: seq<LossRec>): (r: seq<real>)
    ensures |r| == |v| && forall j :: 0 <= j < |v| ==> r[j] == v[j].loss
  {
    seq(|v|, j requires 0 <= j < |v| => v[j].loss)
  }

  lemma {:induction false} TotalIsSum(v: seq<LossRec>)
    ensures TotalLoss(v) == Sum(LossesOf(v))
  {
    if v != [] {
      TotalIsSum(v[..|v| - 1]);
      assert LossesOf(v)[..|v| - 1] == LossesOf(v[..|v| - 1]);
    }
  }

  /** The proportions of a level with a loss add up to 1, those of a level without to 0. */
  lemma ProportionsOfLevel(v0: seq<LossRec>, v: seq<LossRec>)
    requires NonNegativeLosses(v0) && |v| == |v0|
    requires forall j: nat :: j < |v| ==> v[j].proportion == ProportionOf(v0[j], TotalLoss(v0))
    ensures ProportionTotal(v) == if TotalLoss(v0) > 0.0 then 1.0 else 0.0
  {
    ProportionsAddUp(v);
    var total := TotalLoss(v0);
    if total > 0.0 {
      forall j: nat | j < |v| ensures Proportions(v)[j] == Ratio(LossesOf(v0)[j], total) {
        ProportionIsRatio(v0[j], total);
      }
      RatiosAddUp(LossesOf(v0), Proportions(v), total);
      TotalIsSum(v0);
      RatioOfSelf(total);
    } else {
      ZeroSum(Proportions(v));
    }
  }

  ghost function BackedLosses(c: Task, l: nat): (r: seq<real>)
    requires 1 <= l < |c.vecs|
    ensures |r| == |c.vecs[l]|
    ensures forall j: nat :: j < |r| ==> r[j] == if c.Backed(l, j) then c.vecs[l][j].loss else 0.0
  {
    seq(|c.vecs[l]|, j requires 0 <= j < |c.vecs[l]| => if c.Backed(l, j) then c.vecs[l][j].loss else 0.0)
  }

  lemma {:induction false} BackedLossIsSum(c: Task, l: nat, n: nat)
    requires 1 <= l < |c.vecs| && n <= |c.vecs[l]|
    ensures c.BackedLoss(l, n) == Sum(BackedLosses(c, l)[..n])
  {
    if n > 0 {
      BackedLossIsSum(c, l, n - 1);
      assert BackedLosses(c, l)[..n][..n - 1] == BackedLosses(c, l)[..n - 1];
    }
  }

  /** What an aggregate's items have after a level that allocates: its proportion, if they had anything to go by. */
  lemma GroupShare(c: Task, l: nat, items0: seq<real>, v: seq<LossRec>, items: seq<real>, j: nat)
    requires c.Given() && 1 <= l < |c.vecs| && j < |c.vecs[l]|
    requires |items0| == |c.guls| && Basis(c, l - 1, Base(l, c.guls, items0)) && (l == 1 ==> items0 == Zeros(|c.guls|))
    requires Shares(l, c.vecs[l], c.guls, c.owners[l], items0, v, items)
    ensures SumWhere(items, c.owners[l], j)
            == if c.Backed(l, j) then ProportionOf(c.vecs[l][j], TotalLoss(c.vecs[l])) else 0.0
  {
    var base, owner, total := Base(l, c.guls, items0), c.owners[l], TotalLoss(c.vecs[l]);
    BackedSum(c, l, base, j);
    if c.Backed(l, j) {
      LossIsPartOfTotal(c.vecs[l], j);
      ProportionSign(c.vecs[l][j], total);
      ScaledShares(base, items, owner, j, SumWhere(base, owner, j), ProportionOf(c.vecs[l][j], total));
    } else {
      NoShares(base, items0, items, owner, j);
    }
  }

  function Groups(items: seq<real>, owner: seq<nat>, n: nat): (r: seq<real>)
    requires |items| == |owner|
    ensures |r| == n && forall j :: 0 <= j < n ==> r[j] == SumWhere(items, owner, j)
  {
    seq(n, j requires 0 <= j < n => SumWhere(items, owner, j))
  }

  lemma SharesPortion(c: Task, l: nat, items0: seq<real>, v: seq<LossRec>, items: seq<real>)
    requires c.Given() && 1 <= l < |c.vecs| && !c.Kept(l)
    requires |items0| == |c.guls| && Basis(c, l - 1, Base(l, c.guls, items0)) && (l == 1 ==> items0 == Zeros(|c.guls|))
    requires Shares(l, c.vecs[l], c.guls, c.owners[l], items0, v, items)
    ensures Sum(items) == c.Portion(l)
  {
    var v0, owner, total := c.vecs[l], c.owners[l], TotalLoss(c.vecs[l]);
    var groups := Groups(items, owner, |v0|);
    GroupsSum(items, owner, groups);
    forall j: nat | j < |v0|
      ensures groups[j] == if c.Backed(l, j) then ProportionOf(v0[j], total) else 0.0
    {
      GroupShare(c, l, items0, v, items, j);
    }
    if total > 0.0 {
      forall j: nat | j < |v0| ensures groups[j] == Ratio(BackedLosses(c, l)[j], total) {
        ProportionIsRatio(v0[j], total);
        ZeroRatio(total);
      }
      RatiosAddUp(BackedLosses(c, l), groups, total);
      BackedLossIsSum(c, l, |v0|);
      assert BackedLosses(c, l)[..|v0|] == BackedLosses(c, l);
    } else {
      ZeroSum(groups);
    }
  }

  // ---------- all levels ----------

  /** The state after level l, the same with and without zero-skipping. */
  ghost predicate StateAt(c: Task, vecs: seq<seq<LossRec>>, trace: seq<seq<real>>, l: nat)
    requires l < |c.vecs| == |vecs| && l < |trace|
  {
    && |trace[l]| == |c.guls| && Basis(c, l, Base(l + 1, c.guls, trace[l]))
    && Sum(trace[l]) == c.Portion(l) && ProportionTotal(vecs[l]) == c.Allotted(l)
  }

  lemma StartState(c: Task, allowzeros: bool, vecs: seq<seq<LossRec>>, trace: seq<seq<real>>)
    requires c.Given() && Run(c.vecs, c.owners, c.guls, allowzeros, vecs, trace, |c.vecs|)
    ensures StateAt(c, vecs, trace, 0)
  {
    ZeroSum(trace[0]);
    ProportionsAddUp(vecs[0]);
    ZeroSum(Proportions(vecs[0]));
  }

  /** Shares are kept on exactly the levels that say so. */
  lemma CopiesIsKept(c: Task, allowzeros: bool, vecs: seq<seq<LossRec>>, trace: seq<seq<real>>, l: nat)
    requires c.Given() && 1 <= l < |c.vecs| == |vecs| && l <= |trace| && StateAt(c, vecs, trace, l - 1)
    ensures CopiesDown(c.vecs[l], vecs[l - 1], allowzeros) <==> c.Kept(l)
  {
    SkippingKeepsTotal(c.vecs[l], allowzeros);
  }

  lemma CopiedTotal(v0: seq<LossRec>, owner: seq<nat>, items: seq<real>, v: seq<LossRec>)
    requires |owner| == |items| && Owned(v0, owner) && |v| == |v0| && AllInRange(v0, |items|)
    requires forall j: nat :: j < |v| ==> v[j].proportion == SumAt(items, Indices(v0[j]))
    ensures ProportionTotal(v) == Sum(items)
  {
    ProportionsAddUp(v);
    forall j: nat | j < |v| ensures Proportions(v)[j] == SumWhere(items, owner, j) {
      assert Lists(Indices(v0[j]), owner, j);
      SumAtIsSumWhere(items, Indices(v0[j]), owner, j);
    }
    GroupsSum(items, owner, Proportions(v));
  }

  lemma KeptState(c: Task, allowzeros: bool, vecs: seq<seq<LossRec>>, trace: seq<seq<real>>, l: nat)
    requires c.Given() && 1 <= l < |c.vecs| == |vecs| && l < |trace| && StateAt(c, vecs, trace, l - 1) && c.Kept(l)
    requires StepAt(c.vecs, c.owners, c.guls, allowzeros, vecs, trace, l)
    ensures StateAt(c, vecs, trace, l)
  {
    CopiesIsKept(c, allowzeros, vecs, trace, l);
    CopiedTotal(c.vecs[l], c.owners[l], trace[l], vecs[l]);
  }

  lemma SharedState(c: Task, allowzeros: bool, vecs: seq<seq<LossRec>>, trace: seq<seq<real>>, l: nat)
    requires c.Given() && 1 <= l < |c.vecs| == |vecs| && l < |trace| && StateAt(c, vecs, trace, l - 1) && !c.Kept(l)
    requires trace[0] == Zeros(|c.guls|) && StepAt(c.vecs, c.owners, c.guls, allowzeros, vecs, trace, l)
    ensures StateAt(c, vecs, trace, l)
  {
    CopiesIsKept(c, allowzeros, vecs, trace, l);
    StepShareOf(l, c.vecs[l], vecs[l - 1], c.guls, c.owners[l], trace[l - 1], allowzeros, vecs[l], trace[l]);
    SharesBasis(c, l, trace[l - 1], vecs[l], trace[l]);
    SharesPortion(c, l, trace[l - 1], vecs[l], trace[l]);
    ProportionsOfLevel(c.vecs[l], vecs[l]);
  }

  /** The items that have a share after each level, and what the shares add up to. */
  lemma {:induction false} RunState(c: Task, allowzeros: bool, vecs: seq<seq<LossRec>>, trace: seq<seq<real>>, l: nat)
    requires c.Given() && Run(c.vecs, c.owners, c.guls, allowzeros, vecs, trace, |c.vecs|) && l < |c.vecs|
    ensures StateAt(c, vecs, trace, l)
    ensures l > 0 ==> StateAt(c, vecs, trace, l - 1)
  {
    if l == 0 {
      StartState(c, allowzeros, vecs, trace);
    } else {
      RunState(c, allowzeros, vecs, trace, l - 1);
      assert StepAt(c.vecs, c.owners, c.guls, allowzeros, vecs, trace, l);
      if c.Kept(l) { KeptState(c, allowzeros, vecs, trace, l); } else { SharedState(c, allowzeros, vecs, trace, l); }
    }
  }

  /** Zero-skipping never changes the shares of the items. */
  lemma {:induction false} SkippingKeepsShares(c: Task, plain: seq<seq<LossRec>>, plainTrace: seq<seq<real>>,
                                               skipping: seq<seq<LossRec>>, skippingTrace: seq<seq<real>>, l: nat)
    requires c.Given() && l < |c.vecs|
    requires Run(c.vecs, c.owners, c.guls, true, plain, plainTrace, |c.vecs|)
    requires Run(c.vecs, c.owners, c.guls, false, skipping, skippingTrace, |c.vecs|)
    ensures plainTrace[l] == skippingTrace[l]
  {
    if l > 0 {
      SkippingKeepsShares(c, plain, plainTrace, skipping, skippingTrace, l - 1);
      RunState(c, true, plain, plainTrace, l - 1);
      RunState(c, false, skipping, skippingTrace, l - 1);
      assert StepAt(c.vecs, c.owners, c.guls, true, plain, plainTrace, l);
      assert StepAt(c.vecs, c.owners, c.guls, false, skipping, skippingTrace, l);
      SameStep(c, plain, plainTrace, skipping, skippingTrace, l);
    }
  }

  lemma SameStep(c: Task, plain: seq<seq<LossRec>>, plainTrace: seq<seq<real>>, skipping: seq<seq<LossRec>>,
                 skippingTrace: seq<seq<real>>, l: nat)
    requires c.Given() && 1 <= l < |c.vecs| == |plain| == |skipping| && l < |plainTrace| && l < |skippingTrace|
    requires StateAt(c, plain, plainTrace, l - 1) && StateAt(c, skipping, skippingTrace, l - 1)
    requires StepAt(c.vecs, c.owners, c.guls, true, plain, plainTrace, l)
    requires StepAt(c.vecs, c.owners, c.guls, false, skipping, skippingTrace, l)
    requires plainTrace[l - 1] == skippingTrace[l - 1]
    ensures plainTrace[l] == skippingTrace[l]
  {
    var v0, owner, items0 := c.vecs[l], c.owners[l], plainTrace[l - 1];
    CopiesIsKept(c, true, plain, plainTrace, l);
    CopiesIsKept(c, false, skipping, skippingTrace, l);
    if !c.Kept(l) {
      StepShareOf(l, v0, plain[l - 1], c.guls, owner, items0, true, plain[l], plainTrace[l]);
      StepShareOf(l, v0, skipping[l - 1], c.guls, owner, items0, false, skipping[l], skippingTrace[l]);
      assert plainTrace[l] == skippingTrace[l];
    }
  }

  // ---------- item proportions ----------

  /** The proportion at place t of a record's list; none counts as 0. */
  function PropValue(x: LossRec, t: nat): real {
    if x.item_prop.Some? && t < |x.item_prop.value| then x.item_prop.value[t] else 0.0
  }

  /** The part an item would get of the loss of the record it is listed in. */
  function ShareAt(base: seq<real>, at: seq<nat>, t: nat): real
    requires InRange(at, |base|) && t < |at| && SumAt(base, at) > 0.0
  {
    Ratio(base[at[t]], SumAt(base, at))
  }

  /** A record's item proportions after its level. */
  ghost predicate PropsAfter(c: Task, allowzeros: bool, l: nat, j: nat, base: seq<real>, prevProp: Option<seq<real>>,
                             x: LossRec)
    requires 1 <= l < |c.vecs| && j < |c.vecs[l]|
    requires InRange(Indices(c.vecs[l][j]), |base|) && (c.Backed(l, j) ==> SumAt(base, Indices(c.vecs[l][j])) > 0.0)
  {
    var x0 := c.vecs[l][j];
    if !c.Kept(l) && c.Backed(l, j) then
      x.item_prop
      == if Active(x0, allowzeros) then Some(Fractions(base, Indices(x0), SumAt(base, Indices(x0)))) else None
    else if l > 1 && !c.Kept(l) && x0.item_idx.Some? then x.item_prop == prevProp
    else forall t: nat :: PropValue(x, t) == 0.0
  }

  lemma PropsOfStep(c: Task, allowzeros: bool, vecs: seq<seq<LossRec>>, trace: seq<seq<real>>, l: nat, j: nat,
                    base: seq<real>)
    requires c.Given() && 1 <= l < |c.vecs| == |vecs| && l < |trace| && j < |c.vecs[l]|
    requires StateAt(c, vecs, trace, l - 1) && StepAt(c.vecs, c.owners, c.guls, allowzeros, vecs, trace, l)
    requires base == Base(l, c.guls, trace[l - 1])
    ensures j < |vecs[l]| && InRange(Indices(c.vecs[l][j]), |base|)
    ensures c.Backed(l, j) ==> SumAt(base, Indices(c.vecs[l][j])) > 0.0
    ensures PropsAfter(c, allowzeros, l, j, base, PropAt(vecs[l - 1], j), vecs[l][j])
  {
    var v0 := c.vecs[l];
    BackedSum(c, l, base, j);
    CopiesIsKept(c, allowzeros, vecs, trace, l);
    assert InputAt(c.vecs, c.owners, c.guls, l);
    var p := PreparedAll(v0, c.guls, allowzeros);
    if !c.Kept(l) {
      assert RecordStep(l, p, vecs[l - 1], c.guls, trace[l - 1], LossTotal(v0, allowzeros), vecs[l], j);
    }
  }

  lemma PropsOfRun(c: Task, allowzeros: bool, vecs: seq<seq<LossRec>>, trace: seq<seq<real>>, l: nat, j: nat)
    requires c.Given() && Run(c.vecs, c.owners, c.guls, allowzeros, vecs, trace, |c.vecs|)
    requires 1 <= l < |c.vecs| && j < |c.vecs[l]|
    ensures j < |vecs[l]| && |vecs| == |c.vecs| && l < |trace| && |vecs[l - 1]| == |c.vecs[l - 1]|
    ensures var base := Base(l, c.guls, trace[l - 1]);
            InRange(Indices(c.vecs[l][j]), |base|) && (c.Backed(l, j) ==> SumAt(base, Indices(c.vecs[l][j])) > 0.0)
            && PropsAfter(c, allowzeros, l, j, base, PropAt(vecs[l - 1], j), vecs[l][j])
  {
    RunState(c, allowzeros, vecs, trace, l);
    assert StepAt(c.vecs, c.owners, c.guls, allowzeros, vecs, trace, l);
    assert l > 1 ==> StepAt(c.vecs, c.owners, c.guls, allowzeros, vecs, trace, l - 1);
    PropsOfStep(c, allowzeros, vecs, trace, l, j, Base(l, c.guls, trace[l - 1]));
  }

  /** What item proportions are: those of the source level, of the items live below it. */
  ghost predicate PropsAreShares(c: Task, allowzeros: bool, trace: seq<seq<real>>, l: nat, j: nat, x: LossRec)
    requires 1 <= l < |c.vecs| && j < |c.vecs[l]|
  {
    var k := c.Source(l, j);
    if c.Found(allowzeros, l, j) then
      k <= |trace| && PropsAre(x.(item_idx := c.vecs[k][j].item_idx), Base(k, c.guls, trace[k - 1]))
    else forall t: nat :: PropValue(x, t) == 0.0
  }

  lemma {:induction false} RunSource(c: Task, allowzeros: bool, vecs: seq<seq<LossRec>>, trace: seq<seq<real>>,
                                     l: nat, j: nat)
    requires c.Given() && Run(c.vecs, c.owners, c.guls, allowzeros, vecs, trace, |c.vecs|)
    requires 1 <= l < |c.vecs| && j < |c.vecs[l]|
    ensures j < |vecs[l]| && PropsAreShares(c, allowzeros, trace, l, j, vecs[l][j])
  {
    PropsOfRun(c, allowzeros, vecs, trace, l, j);
    if l > 1 && j < |c.vecs[l - 1]| { RunSource(c, allowzeros, vecs, trace, l - 1, j); }
    SourceStep(c, allowzeros, vecs, trace, l, j);
  }

  lemma SourceOwn(c: Task, allowzeros: bool, trace: seq<seq<real>>, l: nat, j: nat, base: seq<real>,
                  prevProp: Option<seq<real>>, x: LossRec)
    requires 1 <= l < |c.vecs| && j < |c.vecs[l]| && l <= |trace| && c.Source(l, j) == l
    requires base == Base(l, c.guls, trace[l - 1]) && InRange(Indices(c.vecs[l][j]), |base|)
    requires c.Backed(l, j) ==> SumAt(base, Indices(c.vecs[l][j])) > 0.0
    requires PropsAfter(c, allowzeros, l, j, base, prevProp, x)
    requires l > 1 && c.vecs[l][j].item_idx.Some? ==> c.Kept(l) || c.Backed(l, j)
    ensures PropsAreShares(c, allowzeros, trace, l, j, x)
  {
    if !c.Found(allowzeros, l, j) {
      forall t: nat ensures PropValue(x, t) == 0.0 {}
    }
  }

  lemma SourceBelow(c: Task, allowzeros: bool, trace: seq<seq<real>>, l: nat, j: nat, x: LossRec, y: LossRec)
    requires 2 <= l < |c.vecs| && j < |c.vecs[l]| && j < |c.vecs[l - 1]| && c.Source(l, j) == c.Source(l - 1, j)
    requires PropsAreShares(c, allowzeros, trace, l - 1, j, y) && x.item_prop == y.item_prop
    ensures PropsAreShares(c, allowzeros, trace, l, j, x)
  {
    if !c.Found(allowzeros, l, j) {
      forall t: nat ensures PropValue(x, t) == 0.0 { assert PropValue(x, t) == PropValue(y, t); }
    }
  }

  lemma SourceStep(c: Task, allowzeros: bool, vecs: seq<seq<LossRec>>, trace: seq<seq<real>>, l: nat, j: nat)
    requires 1 <= l < |c.vecs| == |vecs| && j < |c.vecs[l]| && j < |vecs[l]| && l <= |trace|
    requires |vecs[l - 1]| == |c.vecs[l - 1]|
    requires var base := Base(l, c.guls, trace[l - 1]);
             InRange(Indices(c.vecs[l][j]), |base|) && (c.Backed(l, j) ==> SumAt(base, Indices(c.vecs[l][j])) > 0.0)
             && PropsAfter(c, allowzeros, l, j, base, PropAt(vecs[l - 1], j), vecs[l][j])
    requires l > 1 && j < |c.vecs[l - 1]| ==> PropsAreShares(c, allowzeros, trace, l - 1, j, vecs[l - 1][j])
    ensures PropsAreShares(c, allowzeros, trace, l, j, vecs[l][j])
  {
    var x, base, prevProp := vecs[l][j], Base(l, c.guls, trace[l - 1]), PropAt(vecs[l - 1], j);
    if l == 1 || c.Kept(l) || c.Backed(l, j) || c.vecs[l][j].item_idx.None? {
      SourceOwn(c, allowzeros, trace, l, j, base, prevProp, x);
    } else if j < |c.vecs[l - 1]| {
      SourceBelow(c, allowzeros, trace, l, j, x, vecs[l - 1][j]);
    } else {
      assert x.item_prop == None;
    }
  }
}
