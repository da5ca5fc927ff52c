/**
  compute_item_proportions for layer 1, and the back-allocated output: how the loss of the
  aggregates is spread over the items below them.
*/
module BackAllocation {
  import opened FinancialStructs
  import opened RealSums
  import opened OutputRecords

  function Ratio(a: real, b: real): real
    requires b > 0.0
  {
    a / b
  }

  // ---------- the records of a level ----------

  /** The record is looked at; with allowzeros all are. */
  predicate Active(x: LossRec, allowzeros: bool) { x.loss > 0.0 || x.retained_loss > 0.0 || allowzeros }

  /** A record after the first pass: its ground-up total and room for the proportions of its items. */
  function Prepared(x: LossRec, guls: seq<real>, allowzeros: bool): LossRec
    requires InRange(Indices(x), |guls|)
  {
    if Active(x, allowzeros) then
      x.(gul_total := SumAt(guls, Indices(x)),
         item_prop := if x.item_idx.Some? then Some(Zeros(|Indices(x)|)) else x.item_prop)
    else x.(gul_total := 0.0)
  }

  function LossTotal(v: seq<LossRec>, allowzeros: bool): real {
    if v == [] then 0.0
    else
      var x := v[|v| - 1];
      LossTotal(v[..|v| - 1], allowzeros) + if Active(x, allowzeros) then x.loss else 0.0
  }

  function ProportionTotal(v: seq<LossRec>): real {
    if v == [] then 0.0 else ProportionTotal(v[..|v| - 1]) + v[|v| - 1].proportion
  }

  method SumAtIndices(s: seq<real>, at: seq<nat>) returns (total: real)
    requires InRange(at, |s|)
    ensures total == SumAt(s, at)
  {
    total := 0.0;
    for t := 0 to |at|
      invariant total == SumAt(s, at[..t])
    {
      SumAtSnoc(s, at[..t], at[t]);
      assert at[..t + 1] == at[..t] + [at[t]];
      total := total + s[at[t]];
    }
    assert at[..|at|] == at;
  }

  method PrepareRecord(x0: LossRec, guls: seq<real>, allowzeros: bool) returns (x: LossRec)
    requires InRange(Indices(x0), |guls|)
    ensures x == Prepared(x0, guls, allowzeros)
  {
    x := x0;
    if x.loss > 0.0 || x.retained_loss > 0.0 || allowzeros {
      var total := 0.0;
      if x.item_idx.Some? {
        x := x.(item_prop := Some(Zeros(|x.item_idx.value|)));
        total := SumAtIndices(guls, x.item_idx.value);
      }
      x := x.(gul_total := total);
    } else {
      x := x.(gul_total := 0.0);
    }
  }

  /** The first pass over a level. */
  method Prepare(v0: seq<LossRec>, guls: seq<real>, allowzeros: bool) returns (v: seq<LossRec>, loss_total: real)
    requires AllInRange(v0, |guls|)
    ensures |v| == |v0| && loss_total == LossTotal(v0, allowzeros)
    ensures forall j :: 0 <= j < |v| ==> v[j] == Prepared(v0[j], guls, allowzeros)
  {
    v, loss_total := v0, 0.0;
    for j := 0 to |v0|
      invariant |v| == |v0| && loss_total == LossTotal(v0[..j], allowzeros)
      invariant forall i :: 0 <= i < j ==> v[i] == Prepared(v0[i], guls, allowzeros)
      invariant forall i :: j <= i < |v| ==> v[i] == v0[i]
    {
      var x := PrepareRecord(v[j], guls, allowzeros);
      v := v[j := x];
      if v0[j].loss > 0.0 || v0[j].retained_loss > 0.0 || allowzeros { loss_total := loss_total + v0[j].loss; }
      assert v0[..j + 1][..j] == v0[..j];
    }
    assert v0[..|v0|] == v0;
  }

  method SumProportions(v: seq<LossRec>) returns (total: real)
    ensures total == ProportionTotal(v)
  {
    total := 0.0;
    for j := 0 to |v|
      invariant total == ProportionTotal(v[..j])
    {
      total := total + v[j].proportion;
      assert v[..j + 1][..j] == v[..j];
    }
    assert v[..|v|] == v;
  }

  // ---------- the second pass ----------

  function ProportionOf(x: LossRec, loss_total: real): real {
    if x.loss > 0.0 && loss_total > 0.0 then Ratio(x.loss, loss_total) else 0.0
  }

  function Fractions(base: seq<real>, at: seq<nat>, total: real): (r: seq<real>)
    requires InRange(at, |base|) && total > 0.0
    ensures |r| == |at| && forall t :: 0 <= t < |at| ==> r[t] == Ratio(base[at[t]], total)
  {
    if at == [] then [] else Fractions(base, at[..|at| - 1], total) + [Ratio(base[at[|at| - 1]], total)]
  }

  /** What the proportions of some items are shares of. */
  function Base(level: nat, guls: seq<real>, items_prop: seq<real>): seq<real> {
    if level == 1 then guls else items_prop
  }

  /** The proportion of item y after an aggregate with this total and proportion has claimed it. */
  function Claimed(base: seq<real>, y: nat, total: real, proportion: real): real
    requires y < |base| && total > 0.0
  {
    Times(Ratio(base[y], total), proportion)
  }

  /** The inner loop: the aggregate's proportion is shared among its items. */
  method ShareOut(level: nat, at: seq<nat>, guls: seq<real>, total: real, divisor: real, proportion: real,
                  v0: Option<seq<real>>, items_prop0: seq<real>)
      returns (v: Option<seq<real>>, items_prop: seq<real>)
    requires |guls| == |items_prop0| && InRange(at, |guls|) && Distinct(at) && total > 0.0
    requires v0.Some? ==> |v0.value| == |at| && divisor > 0.0
    ensures v == if v0.Some? then Some(Fractions(Base(level, guls, items_prop0), at, divisor)) else None
    ensures |items_prop| == |items_prop0|
    ensures forall y: nat :: y < |guls| ==>
              items_prop[y] == if y in at then Claimed(Base(level, guls, items_prop0), y, total, proportion)
                               else items_prop0[y]
  {
    v, items_prop := v0, items_prop0;
    ghost var base := Base(level, guls, items_prop0);
    for i := 0 to |at|
      invariant |items_prop| == |items_prop0| && v.Some? == v0.Some?
      invariant v.Some? ==> |v.value| == |at| && forall t :: 0 <= t < i ==> v.value[t] == Ratio(base[at[t]], divisor)
      invariant forall y: nat :: y < |guls| ==>
                  items_prop[y] == if y in at[..i] then Claimed(base, y, total, proportion) else items_prop0[y]
    {
      var idx := at[i];
      assert idx !in at[..i];
      assert at[..i + 1] == at[..i] + [idx];
      var own := if level == 1 then guls[idx] else items_prop[idx];
      if v.Some? {
        v := Some(v.value[i := Ratio(own, divisor)]);
      }
      items_prop := items_prop[idx := Times(Ratio(own, total), proportion)];
    }
    assert at[..|at|] == at;
    if v.Some? { assert v.value == Fractions(base, at, divisor); }
  }

  /** A record after the second pass; prevProp are the proportions of the record at its place one level below. */
  function Allocated(level: nat, x: LossRec, guls: seq<real>, items_prop: seq<real>, prevProp: Option<seq<real>>,
                     loss_total: real): LossRec
    requires |guls| == |items_prop| && InRange(Indices(x), |guls|)
  {
    var base := Base(level, guls, items_prop);
    var total := SumAt(base, Indices(x));
    x.(proportion := ProportionOf(x, loss_total),
       item_prop := if total > 0.0 then
                      if x.item_prop.Some? then Some(Fractions(base, Indices(x), total)) else None
                    else if level != 1 && x.item_idx.Some? then prevProp
                    else x.item_prop)
  }

  /** Fresh records only have room for proportions where the first pass made it. */
  ghost predicate ReadyToShare(x: LossRec, guls: seq<real>) {
    && InRange(Indices(x), |guls|) && Distinct(Indices(x))
    && (x.item_prop.Some? ==> |x.item_prop.value| == |Indices(x)| && x.gul_total == SumAt(guls, Indices(x)))
  }

  method AllocateRecord(level: nat, x0: LossRec, guls: seq<real>, items_prop0: seq<real>, prevProp: Option<seq<real>>,
                        loss_total: real)
      returns (x: LossRec, items_prop: seq<real>)
    requires |guls| == |items_prop0| && ReadyToShare(x0, guls)
    ensures x == Allocated(level, x0, guls, items_prop0, prevProp, loss_total)
    ensures |items_prop| == |items_prop0|
    ensures var base := Base(level, guls, items_prop0);
            var total := SumAt(base, Indices(x0));
            forall y: nat :: y < |guls| ==>
              items_prop[y] == if y in Indices(x0) && total > 0.0
                               then Claimed(base, y, total, ProportionOf(x0, loss_total)) else items_prop0[y]
  {
    x, items_prop := x0, items_prop0;
    if x.loss > 0.0 && loss_total > 0.0 {
      x := x.(proportion := Ratio(x.loss, loss_total));
    } else {
      x := x.(proportion := 0.0);
    }
    var at := if x.item_idx.Some? then x.item_idx.value else [];
    var total := SumAtIndices(if level == 1 then guls else items_prop, at);
    if total > 0.0 {
      var v;
      v, items_prop := ShareOut(level, at, guls, total, if level == 1 then x.gul_total else total, x.proportion,
                                x.item_prop, items_prop);
      x := x.(item_prop := v);
    } else if level != 1 && x.item_idx.Some? {
      x := x.(item_prop := prevProp);
    }
  }

  function PropAt(v: seq<LossRec>, j: nat): Option<seq<real>> { if j < |v| then v[j].item_prop else None }

  /** Every item is owned by one record of the level, and that record lists it once. */
  ghost predicate Owned(v: seq<LossRec>, owner: seq<nat>) {
    && (forall y :: 0 <= y < |owner| ==> owner[y] < |v|)
    && (forall j :: 0 <= j < |v| ==> Lists(Indices(v[j]), owner, j))
  }

  /** The proportion of an item after a level: its share of its aggregate's proportion. */
  function ShareOf(level: nat, v: seq<LossRec>, owner: seq<nat>, guls: seq<real>, items_prop: seq<real>,
                   loss_total: real, y: nat): real
    requires y < |owner| == |guls| == |items_prop| && owner[y] < |v|
  {
    var base := Base(level, guls, items_prop);
    var total := SumWhere(base, owner, owner[y]);
    if total > 0.0 then Claimed(base, y, total, ProportionOf(v[owner[y]], loss_total)) else items_prop[y]
  }

  /** The second pass over a level. */
  method Allocate(level: nat, v0: seq<LossRec>, prev: seq<LossRec>, guls: seq<real>, items_prop0: seq<real>,
                  loss_total: real, ghost owner: seq<nat>)
      returns (v: seq<LossRec>, items_prop: seq<real>)
    requires |owner| == |guls| == |items_prop0| && Owned(v0, owner)
    requires forall j :: 0 <= j < |v0| ==> ReadyToShare(v0[j], guls)
    ensures |v| == |v0| && |items_prop| == |guls|
    ensures forall j: nat :: j < |v| ==>
              v[j] == Allocated(level, v0[j], guls, items_prop0, PropAt(prev, j), loss_total)
    ensures forall y: nat :: y < |guls| ==>
              items_prop[y] == ShareOf(level, v0, owner, guls, items_prop0, loss_total, y)
  {
    v, items_prop := v0, items_prop0;
    for j := 0 to |v0|
      invariant |v| == |v0| && |items_prop| == |guls|
      invariant forall i: nat :: i < j ==>
                  v[i] == Allocated(level, v0[i], guls, items_prop0, PropAt(prev, i), loss_total)
      invariant forall i :: j <= i < |v| ==> v[i] == v0[i]
      invariant forall y: nat :: y < |guls| ==>
                  items_prop[y] == if owner[y] < j then ShareOf(level, v0, owner, guls, items_prop0, loss_total, y)
                                   else items_prop0[y]
    {
      ghost var before := items_prop;
      var x;
      x, items_prop := AllocateRecord(level, v[j], guls, items_prop, PropAt(prev, j), loss_total);
      AllocateStep(level, v0, owner, guls, items_prop0, before, items_prop, loss_total, PropAt(prev, j), j);
      v := v[j := x];
    }
  }

  /** An aggregate's own items are untouched until its turn comes. */
  lemma AllocateStep(level: nat, v0: seq<LossRec>, owner: seq<nat>, guls: seq<real>, items_prop0: seq<real>,
                     before: seq<real>, after: seq<real>, loss_total: real, prevProp: Option<seq<real>>, j: nat)
    requires |owner| == |guls| == |items_prop0| == |before| == |after| && Owned(v0, owner) && j < |v0|
    requires forall y: nat :: y < |guls| && owner[y] >= j ==> before[y] == items_prop0[y]
    requires var base := Base(level, guls, before);
             var total := SumAt(base, Indices(v0[j]));
             forall y: nat :: y < |guls| ==>
               after[y] == if y in Indices(v0[j]) && total > 0.0
                           then Claimed(base, y, total, ProportionOf(v0[j], loss_total)) else before[y]
    ensures forall y: nat :: y < |guls| ==>
              after[y] == if owner[y] == j then ShareOf(level, v0, owner, guls, items_prop0, loss_total, y)
                          else before[y]
    ensures Allocated(level, v0[j], guls, before, prevProp, loss_total)
            == Allocated(level, v0[j], guls, items_prop0, prevProp, loss_total)
  {
    var at := Indices(v0[j]);
    var base, base0 := Base(level, guls, before), Base(level, guls, items_prop0);
    assert Lists(at, owner, j);
    SumAtIsSumWhere(base, at, owner, j);
    SumAtIsSumWhere(base0, at, owner, j);
    SumWhereSame(base0, base, owner, j);
    if SumAt(base, at) > 0.0 {
      assert Fractions(base, at, SumAt(base, at)) == Fractions(base0, at, SumAt(base0, at));
    }
    forall y: nat | y < |guls|
      ensures after[y] == if owner[y] == j then ShareOf(level, v0, owner, guls, items_prop0, loss_total, y)
                          else before[y]
    {
      assert y in at <==> owner[y] == j;
    }
  }

  // ---------- all levels ----------

  function PreparedAll(v: seq<LossRec>, guls: seq<real>, allowzeros: bool): (r: seq<LossRec>)
    requires AllInRange(v, |guls|)
    ensures |r| == |v| && AllInRange(r, |guls|)
    ensures forall j :: 0 <= j < |v| ==> r[j] == Prepared(v[j], guls, allowzeros)
  {
    seq(|v|, j requires 0 <= j < |v| && AllInRange(v, |guls|) => Prepared(v[j], guls, allowzeros))
  }

  /** Without any loss at a level the proportions of the level below are kept. */
  function Copied(x: LossRec, items_prop: seq<real>): LossRec
    requires InRange(Indices(x), |items_prop|)
  {
    x.(proportion := x.proportion + SumAt(items_prop, Indices(x)))
  }

  method CopyProportions(v0: seq<LossRec>, items_prop: seq<real>) returns (v: seq<LossRec>)
    requires AllInRange(v0, |items_prop|)
    ensures |v| == |v0| && forall j :: 0 <= j < |v| ==> v[j] == Copied(v0[j], items_prop)
  {
    v := v0;
    for j := 0 to |v0|
      invariant |v| == |v0|
      invariant forall i :: 0 <= i < j ==> v[i] == Copied(v0[i], items_prop)
      invariant forall i :: j <= i < |v| ==> v[i] == v0[i]
    {
      var share := SumAtIndices(items_prop, Indices(v[j]));
      v := v[j := v[j].(proportion := v[j].proportion + share)];
    }
  }

  predicate CopiesDown(v0: seq<LossRec>, prev: seq<LossRec>, allowzeros: bool) {
    LossTotal(v0, allowzeros) <= 0.0 && ProportionTotal(prev) > 0.01
  }

  /** What one level does to its records and to the proportions of the items. */
  ghost predicate LevelStep(level: nat, v0: seq<LossRec>, prev: seq<LossRec>, guls: seq<real>, owner: seq<nat>,
                            items0: seq<real>, allowzeros: bool, v: seq<LossRec>, items: seq<real>)
  {
    && |owner| == |guls| == |items0| == |items| && |v| == |v0| && AllInRange(v0, |guls|) && Owned(v0, owner)
    && var p, loss_total := PreparedAll(v0, guls, allowzeros), LossTotal(v0, allowzeros);
       if CopiesDown(v0, prev, allowzeros) then
         items == items0 && forall j: nat :: j < |v| ==> v[j] == Copied(p[j], items0)
       else
         && (forall j: nat {:trigger RecordStep(level, p, prev, guls, items0, loss_total, v, j)} :: j < |v| ==>
               RecordStep(level, p, prev, guls, items0, loss_total, v, j))
         && (forall y: nat {:trigger ItemStep(level, p, owner, guls, items0, loss_total, items, y)} :: y < |guls| ==>
               ItemStep(level, p, owner, guls, items0, loss_total, items, y))
  }

  ghost predicate RecordStep(level: nat, p: seq<LossRec>, prev: seq<LossRec>, guls: seq<real>, items0: seq<real>,
                             loss_total: real, v: seq<LossRec>, j: nat)
    requires j < |p| == |v| && |items0| == |guls| && AllInRange(p, |guls|)
  {
    v[j] == Allocated(level, p[j], guls, items0, PropAt(prev, j), loss_total)
  }

  ghost predicate ItemStep(level: nat, p: seq<LossRec>, owner: seq<nat>, guls: seq<real>, items0: seq<real>,
                           loss_total: real, items: seq<real>, y: nat)
    requires y < |owner| == |guls| == |items0| == |items| && owner[y] < |p|
  {
    items[y] == ShareOf(level, p, owner, guls, items0, loss_total, y)
  }

  /** Records as dofmcalc_r leaves them: no proportions yet. */
  ghost predicate FreshProps(v: seq<LossRec>) { forall j :: 0 <= j < |v| ==> v[j].item_prop == None }

  lemma PreparedReady(v: seq<LossRec>, owner: seq<nat>, guls: seq<real>, allowzeros: bool)
    requires |owner| == |guls| && Owned(v, owner) && FreshProps(v)
    ensures AllInRange(v, |guls|) && Owned(PreparedAll(v, guls, allowzeros), owner)
    ensures forall j :: 0 <= j < |v| ==> ReadyToShare(PreparedAll(v, guls, allowzeros)[j], guls)
  {
    forall j | 0 <= j < |v| ensures InRange(Indices(v[j]), |guls|) {
      assert Lists(Indices(v[j]), owner, j);
    }
    var p := PreparedAll(v, guls, allowzeros);
    forall j | 0 <= j < |p| ensures Lists(Indices(p[j]), owner, j) && ReadyToShare(p[j], guls) {
      assert Lists(Indices(v[j]), owner, j);
    }
  }

  method AllocateLevel(level: nat, v0: seq<LossRec>, prev: seq<LossRec>, guls: seq<real>, ghost owner: seq<nat>,
                       items0: seq<real>, allowzeros: bool)
      returns (v: seq<LossRec>, items: seq<real>)
    requires |owner| == |guls| == |items0| && Owned(v0, owner) && FreshProps(v0)
    ensures LevelStep(level, v0, prev, guls, owner, items0, allowzeros, v, items)
  {
    PreparedReady(v0, owner, guls, allowzeros);
    var previous_proportions_total := SumProportions(prev);
    var p, loss_total := Prepare(v0, guls, allowzeros);
    assert p == PreparedAll(v0, guls, allowzeros);
    if loss_total <= 0.0 && previous_proportions_total > 0.01 {
      v := CopyProportions(p, items0);
      items := items0;
    } else {
      v, items := Allocate(level, p, prev, guls, items0, loss_total, owner);
    }
  }

  /** The layer 1 vectors of all levels, and who owns the items at each. */
  ghost predicate Input(vecs: seq<seq<LossRec>>, owners: seq<seq<nat>>, guls: seq<real>) {
    && 1 <= |vecs| == |owners|
    && forall l: nat {:trigger InputAt(vecs, owners, guls, l)} :: 1 <= l < |vecs| ==> InputAt(vecs, owners, guls, l)
  }

  ghost predicate InputAt(vecs: seq<seq<LossRec>>, owners: seq<seq<nat>>, guls: seq<real>, l: nat)
    requires l < |vecs| == |owners|
  {
    |owners[l]| == |guls| && Owned(vecs[l], owners[l]) && FreshProps(vecs[l])
  }

  /** trace[l] are the proportions of the items after level l. */
  ghost predicate Run(vecs0: seq<seq<LossRec>>, owners: seq<seq<nat>>, guls: seq<real>, allowzeros: bool,
                      vecs: seq<seq<LossRec>>, trace: seq<seq<real>>, levels: nat)
  {
    && |vecs| == |vecs0| == |owners| && |trace| == levels && 1 <= levels <= |vecs|
    && trace[0] == Zeros(|guls|)
    && (forall l: nat :: l == 0 || levels <= l < |vecs| ==> vecs[l] == vecs0[l])
    && forall l: nat {:trigger StepAt(vecs0, owners, guls, allowzeros, vecs, trace, l)} ::
         1 <= l < levels ==> StepAt(vecs0, owners, guls, allowzeros, vecs, trace, l)
  }

  ghost predicate StepAt(vecs0: seq<seq<LossRec>>, owners: seq<seq<nat>>, guls: seq<real>, allowzeros: bool,
                         vecs: seq<seq<LossRec>>, trace: seq<seq<real>>, l: nat)
    requires 1 <= l < |vecs| == |vecs0| == |owners| && l < |trace|
  {
    LevelStep(l, vecs0[l], vecs[l - 1], guls, owners[l], trace[l - 1], allowzeros, vecs[l], trace[l])
  }

  lemma RunStep(vecs0: seq<seq<LossRec>>, owners: seq<seq<nat>>, guls: seq<real>, allowzeros: bool,
                vecs: seq<seq<LossRec>>, trace: seq<seq<real>>, level: nat, v: seq<LossRec>, items: seq<real>)
    requires Run(vecs0, owners, guls, allowzeros, vecs, trace, level) && level < |vecs|
    requires LevelStep(level, vecs0[level], vecs[level - 1], guls, owners[level], trace[level - 1], allowzeros, v,
                       items)
    ensures Run(vecs0, owners, guls, allowzeros, vecs[level := v], trace + [items], level + 1)
  {
    var after, longer := vecs[level := v], trace + [items];
    forall l: nat | 1 <= l < level + 1
      ensures StepAt(vecs0, owners, guls, allowzeros, after, longer, l)
    {
      assert l < level ==> StepAt(vecs0, owners, guls, allowzeros, vecs, trace, l);
      assert after[l - 1] == vecs[l - 1] && longer[l - 1] == trace[l - 1];
      if l < level { assert after[l] == vecs[l] && longer[l] == trace[l]; }
    }
  }

  method ComputeItemProportions(vecs0: seq<seq<LossRec>>, guls: seq<real>, allowzeros: bool,
                                ghost owners: seq<seq<nat>>)
      returns (vecs: seq<seq<LossRec>>, trace: seq<seq<real>>)
    requires Input(vecs0, owners, guls)
    ensures Run(vecs0, owners, guls, allowzeros, vecs, trace, |vecs0|)
  {
    vecs := vecs0;
    var items_prop := Zeros(|guls|);
    trace := [items_prop];
    for level := 1 to |vecs0|
      invariant Run(vecs0, owners, guls, allowzeros, vecs, trace, level)
      invariant items_prop == trace[level - 1] && |items_prop| == |guls|
    {
      assert InputAt(vecs0, owners, guls, level);
      var v, items := AllocateLevel(level, vecs[level], vecs[level - 1], guls, owners[level], items_prop, allowzeros);
      RunStep(vecs0, owners, guls, allowzeros, vecs, trace, level, v, items);
      vecs, items_prop, trace := vecs[level := v], items, trace + [items];
    }
  }

  // ---------- output ----------

  /** Zero-skipping is off for the sample of the means. */
  predicate AllowZeros(generalOptimization: bool, sidx: int) { !generalOptimization || sidx == -1 }

  /** The state of the output loop after n records of the top level. */
  ghost predicate Progress(vecs0: seq<seq<LossRec>>, owners: seq<seq<nat>>, guls: seq<real>, allowzeros: bool,
                           items: seq<int>, sidx: int, xref: map<(int, int), int>, n: nat, computed: bool,
                           vecs: seq<seq<LossRec>>, trace: seq<seq<real>>, out: seq<OutRec>)
  {
    && 2 <= |vecs0| == |vecs| && n <= |vecs0[|vecs0| - 1]| == |vecs[|vecs0| - 1]|
    && (computed <==> SomeWrites(vecs0[|vecs0| - 1], n, sidx))
    && (if computed then Run(vecs0, owners, guls, allowzeros, vecs, trace, |vecs0|) else vecs == vecs0 && out == [])
    && AllInRange(vecs[|vecs0| - 1], |items|)
    && out == AllWritten(vecs[|vecs0| - 1], items, 1, sidx, xref, n)
  }

  lemma ProgressSkips(vecs0: seq<seq<LossRec>>, owners: seq<seq<nat>>, guls: seq<real>, allowzeros: bool,
                      items: seq<int>, sidx: int, xref: map<(int, int), int>, n: nat, computed: bool,
                      vecs: seq<seq<LossRec>>, trace: seq<seq<real>>, out: seq<OutRec>)
    requires Progress(vecs0, owners, guls, allowzeros, items, sidx, xref, n, computed, vecs, trace, out)
    requires n < |vecs[|vecs0| - 1]| && !Writes(vecs[|vecs0| - 1][n], sidx)
    ensures Progress(vecs0, owners, guls, allowzeros, items, sidx, xref, n + 1, computed, vecs, trace, out)
  {
    if computed { RunKeepsWrites(vecs0, owners, guls, allowzeros, vecs, trace, n, sidx); }
  }

  lemma ProgressWrites(vecs0: seq<seq<LossRec>>, owners: seq<seq<nat>>, guls: seq<real>, allowzeros: bool,
                       items: seq<int>, sidx: int, xref: map<(int, int), int>, n: nat,
                       vecs: seq<seq<LossRec>>, trace: seq<seq<real>>, out: seq<OutRec>)
    requires 2 <= |vecs0| == |vecs| && n < |vecs0[|vecs0| - 1]| == |vecs[|vecs0| - 1]|
    requires Run(vecs0, owners, guls, allowzeros, vecs, trace, |vecs0|)
    requires AllInRange(vecs[|vecs0| - 1], |items|) && Writes(vecs0[|vecs0| - 1][n], sidx)
    requires out == AllWritten(vecs[|vecs0| - 1], items, 1, sidx, xref, n)
    ensures var x := vecs[|vecs0| - 1][n];
            Progress(vecs0, owners, guls, allowzeros, items, sidx, xref, n + 1, true, vecs, trace,
                     out + Written(x, items, 1, sidx, xref, |Indices(x)|))
  {
    RunKeepsWrites(vecs0, owners, guls, allowzeros, vecs, trace, n, sidx);
  }

  /**
    Allocation rule 2 at the top level for layer 1: the proportions are computed once, when the
    first record is about to be written.
  */
  method WriteLevel(vecs0: seq<seq<LossRec>>, guls: seq<real>, items: seq<int>, sidx: int, generalOptimization: bool,
                    xref: map<(int, int), int>, ghost owners: seq<seq<nat>>)
      returns (vecs: seq<seq<LossRec>>, out: seq<OutRec>, trace: seq<seq<real>>, computed: bool)
    requires Input(vecs0, owners, guls) && |vecs0| >= 2 && |items| == |guls|
    ensures Progress(vecs0, owners, guls, AllowZeros(generalOptimization, sidx), items, sidx, xref,
                     |vecs0[|vecs0| - 1]|, computed, vecs, trace, out)
  {
    var top, allowzeros := |vecs0| - 1, AllowZeros(generalOptimization, sidx);
    vecs, out, trace, computed := vecs0, [], [], false;
    assert InputAt(vecs0, owners, guls, top);
    InputInRange(vecs0[top], owners[top], guls);
    for j := 0 to |vecs0[top]|
      invariant Progress(vecs0, owners, guls, allowzeros, items, sidx, xref, j, computed, vecs, trace, out)
    {
      var x := vecs[top][j];
      if (x.loss > 0.0 || sidx < 0) && x.agg_id > 0 {
        vecs, out, trace := WriteNext(vecs0, guls, items, sidx, allowzeros, xref, owners, j, computed, vecs, out,
                                      trace);
        computed := true;
      } else {
        ProgressSkips(vecs0, owners, guls, allowzeros, items, sidx, xref, j, computed, vecs, trace, out);
      }
    }
  }

  /** At the end of the loop the output is that of the top level. */
  lemma ProgressIsRight(vecs0: seq<seq<LossRec>>, owners: seq<seq<nat>>, guls: seq<real>, allowzeros: bool,
                        items: seq<int>, sidx: int, xref: map<(int, int), int>, computed: bool,
                        vecs: seq<seq<LossRec>>, trace: seq<seq<real>>, out: seq<OutRec>)
    requires 2 <= |vecs0| == |vecs|
    requires Progress(vecs0, owners, guls, allowzeros, items, sidx, xref, |vecs0[|vecs0| - 1]|, computed, vecs, trace,
                      out)
    ensures OutputRight(vecs[|vecs| - 1], items, 1, sidx, xref, out)
  {
    OutputLaw(vecs[|vecs| - 1], items, 1, sidx, xref);
  }

  // ---------- a single level ----------

  /** Each item's part of the ground-up losses of a list of items. */
  function GulParts(guls: seq<real>, at: seq<nat>): (r: seq<real>)
    requires InRange(at, |guls|)
    ensures |r| == |at|
  {
    if SumAt(guls, at) > 0.0 then Fractions(guls, at, SumAt(guls, at)) else Zeros(|at|)
  }

  /** A record whose loss goes to its items in proportion to their ground-up losses. */
  function ByGuls(x: LossRec, guls: seq<real>): LossRec
    requires InRange(Indices(x), |guls|)
  {
    x.(item_prop := Some(GulParts(guls, Indices(x))))
  }

  /** The item losses of such a record, from the ground-up losses and their total. */
  ghost predicate GulLosses(y: LossRec, loss: real, guls: seq<real>, at: seq<nat>, gultotal: real)
    requires InRange(at, |guls|)
  {
    Indices(y) == at && forall t :: 0 <= t < |at| ==>
      ItemLoss(y, t) == Times(loss, if gultotal > 0.0 then Ratio(guls[at[t]], gultotal) else 0.0)
  }

  /** The loop over the items of a record under allocation rule 1. */
  method ShareByGuls(loss: real, at: seq<nat>, gultotal: real, guls: seq<real>, items: seq<int>, layer: int,
                     sidx: int, xref: map<(int, int), int>, ghost y: LossRec)
      returns (out: seq<OutRec>)
    requires |items| == |guls| && InRange(at, |guls|) && GulLosses(y, loss, guls, at, gultotal)
    ensures out == Written(y, items, layer, sidx, xref, |at|)
  {
    out := [];
    for i := 0 to |at|
      invariant out == Written(y, items, layer, sidx, xref, i)
    {
      var prop := 0.0;
      if gultotal > 0.0 { prop := Ratio(guls[at[i]], gultotal); }
      out := WriteItem(items[at[i]], layer, sidx, xref, Times(loss, prop), out);
    }
  }

  /** Allocation rule 1 for one record. */
  method WriteByGuls(x: LossRec, guls: seq<real>, items: seq<int>, layer: int, sidx: int, xref: map<(int, int), int>)
      returns (out: seq<OutRec>)
    requires |items| == |guls| && InRange(Indices(x), |guls|)
    ensures out == Written(ByGuls(x, guls), items, layer, sidx, xref, |Indices(x)|)
    ensures Writes(x, sidx) ==> OutputRight([ByGuls(x, guls)], items, layer, sidx, xref, out)
  {
    var at := if x.item_idx.Some? then x.item_idx.value else [];
    var gultotal := SumAtIndices(guls, at);
    out := ShareByGuls(x.loss, at, gultotal, guls, items, layer, sidx, xref, ByGuls(x, guls));
    RecordLaw(ByGuls(x, guls), items, layer, sidx, xref);
  }

  function AllByGuls(v: seq<LossRec>, guls: seq<real>): (r: seq<LossRec>)
    requires AllInRange(v, |guls|)
    ensures |r| == |v| && AllInRange(r, |guls|) && forall j :: 0 <= j < |v| ==> r[j] == ByGuls(v[j], guls)
  {
    seq(|v|, j requires 0 <= j < |v| && AllInRange(v, |guls|) => ByGuls(v[j], guls))
  }

  /** The body of the output loop for record j. */
  method WriteNextByGuls(v: seq<LossRec>, guls: seq<real>, items: seq<int>, sidx: int, xref: map<(int, int), int>,
                         j: nat, out0: seq<OutRec>)
      returns (out: seq<OutRec>)
    requires |items| == |guls| && AllInRange(v, |guls|) && j < |v|
    requires out0 == AllWritten(AllByGuls(v, guls), items, 1, sidx, xref, j)
    ensures out == AllWritten(AllByGuls(v, guls), items, 1, sidx, xref, j + 1)
  {
    var x := v[j];
    var more := [];
    if (x.loss > 0.0 || sidx < 0) && x.agg_id > 0 {
      more := WriteByGuls(x, guls, items, 1, sidx, xref);
    }
    out := out0 + more;
  }

  method WriteLevelByGuls(v: seq<LossRec>, guls: seq<real>, items: seq<int>, sidx: int, xref: map<(int, int), int>)
      returns (out: seq<OutRec>)
    requires |items| == |guls| && AllInRange(v, |guls|)
    ensures out == AllWritten(AllByGuls(v, guls), items, 1, sidx, xref, |v|)
  {
    out := [];
    for j := 0 to |v|
      invariant out == AllWritten(AllByGuls(v, guls), items, 1, sidx, xref, j)
    {
      out := WriteNextByGuls(v, guls, items, sidx, xref, j, out);
    }
  }

  lemma ByGulsIsRight(v: seq<LossRec>, guls: seq<real>, items: seq<int>, sidx: int, xref: map<(int, int), int>,
                      top: seq<LossRec>, out: seq<OutRec>)
    requires |items| == |guls| && AllInRange(v, |guls|) && top == AllByGuls(v, guls)
    requires out == AllWritten(top, items, 1, sidx, xref, |top|)
    ensures OutputRight(top, items, 1, sidx, xref, out)
  {
    OutputLaw(top, items, 1, sidx, xref);
  }

  /**
    The output of the top level for layer 1. With a single level above the items, rule 2 is
    replaced by rule 1, which needs no proportions.
  */
  method WriteTop(vecs0: seq<seq<LossRec>>, guls: seq<real>, items: seq<int>, sidx: int, generalOptimization: bool,
                  xref: map<(int, int), int>, ghost owners: seq<seq<nat>>)
      returns (vecs: seq<seq<LossRec>>, out: seq<OutRec>, trace: seq<seq<real>>, computed: bool,
               ghost top: seq<LossRec>)
    requires Input(vecs0, owners, guls) && |vecs0| >= 2 && |items| == |guls|
    ensures |vecs0| > 2 ==>
              Progress(vecs0, owners, guls, AllowZeros(generalOptimization, sidx), items, sidx, xref,
                       |vecs0[|vecs0| - 1]|, computed, vecs, trace, out)
              && top == vecs[|vecs| - 1]
    ensures |vecs0| == 2 ==>
              vecs == vecs0 && AllInRange(vecs0[1], |guls|) && top == AllByGuls(vecs0[1], guls)
              && out == AllWritten(top, items, 1, sidx, xref, |top|)
    ensures OutputRight(top, items, 1, sidx, xref, out)
  {
    if |vecs0| > 2 {
      vecs, out, trace, computed := WriteLevel(vecs0, guls, items, sidx, generalOptimization, xref, owners);
      top := vecs[|vecs0| - 1];
      ProgressIsRight(vecs0, owners, guls, AllowZeros(generalOptimization, sidx), items, sidx, xref, computed, vecs,
                      trace, out);
    } else {
      assert InputAt(vecs0, owners, guls, 1);
      InputInRange(vecs0[1], owners[1], guls);
      vecs, trace, computed := vecs0, [], false;
      out := WriteLevelByGuls(vecs0[1], guls, items, sidx, xref);
      top := AllByGuls(vecs0[1], guls);
      ByGulsIsRight(vecs0[1], guls, items, sidx, xref, top, out);
    }
  }

  /** The body of the output loop for a record that is written. */
  method WriteNext(ghost vecs0: seq<seq<LossRec>>, guls: seq<real>, items: seq<int>, sidx: int, allowzeros: bool,
                   xref: map<(int, int), int>, ghost owners: seq<seq<nat>>, j: nat, item_proportions_computed: bool,
                   vecs1: seq<seq<LossRec>>, out1: seq<OutRec>, trace1: seq<seq<real>>)
      returns (vecs: seq<seq<LossRec>>, out: seq<OutRec>, trace: seq<seq<real>>)
    requires Input(vecs0, owners, guls) && |vecs0| >= 2 && |items| == |guls| && j < |vecs0[|vecs0| - 1]|
    requires Progress(vecs0, owners, guls, allowzeros, items, sidx, xref, j, item_proportions_computed, vecs1, trace1,
                      out1)
    requires Writes(vecs1[|vecs0| - 1][j], sidx)
    ensures Progress(vecs0, owners, guls, allowzeros, items, sidx, xref, j + 1, true, vecs, trace, out)
  {
    vecs, trace, out := vecs1, trace1, out1;
    if !item_proportions_computed {
      NothingYet(vecs0, owners, guls, allowzeros, items, sidx, xref, j, vecs, trace, out);
      vecs, trace := ComputeItemProportions(vecs1, guls, allowzeros, owners);
      RunInRange(vecs0, owners, guls, allowzeros, vecs, trace);
      NothingWritten(vecs0, owners, guls, allowzeros, vecs, trace, items, xref, j, sidx);
    } else {
      RunKeepsWrites(vecs0, owners, guls, allowzeros, vecs, trace, j, sidx);
    }
    var more := WriteRecord(vecs[|vecs| - 1][j], items, 1, sidx, xref);
    ProgressWrites(vecs0, owners, guls, allowzeros, items, sidx, xref, j, vecs, trace, out);
    out := out + more;
  }

  lemma NothingYet(vecs0: seq<seq<LossRec>>, owners: seq<seq<nat>>, guls: seq<real>, allowzeros: bool,
                   items: seq<int>, sidx: int, xref: map<(int, int), int>, n: nat, vecs: seq<seq<LossRec>>,
                   trace: seq<seq<real>>, out: seq<OutRec>)
    requires Progress(vecs0, owners, guls, allowzeros, items, sidx, xref, n, false, vecs, trace, out)
    ensures !SomeWrites(vecs0[|vecs0| - 1], n, sidx) && vecs == vecs0 && out == []
  {}

  lemma InputInRange(v: seq<LossRec>, owner: seq<nat>, guls: seq<real>)
    requires |owner| == |guls| && Owned(v, owner)
    ensures AllInRange(v, |guls|)
  {
    forall j | 0 <= j < |v| ensures InRange(Indices(v[j]), |guls|) {
      assert Lists(Indices(v[j]), owner, j);
    }
  }

  /** Allocation changes proportions, not losses, identities or item lists. */
  lemma RunKeeps(vecs0: seq<seq<LossRec>>, owners: seq<seq<nat>>, guls: seq<real>, allowzeros: bool,
                 vecs: seq<seq<LossRec>>, trace: seq<seq<real>>, l: nat, j: nat)
    requires Run(vecs0, owners, guls, allowzeros, vecs, trace, |vecs0|) && 1 <= l < |vecs0| && j < |vecs0[l]|
    ensures j < |vecs[l]| == |vecs0[l]|
    ensures vecs[l][j].loss == vecs0[l][j].loss && vecs[l][j].agg_id == vecs0[l][j].agg_id
    ensures Indices(vecs[l][j]) == Indices(vecs0[l][j])
  {
    assert StepAt(vecs0, owners, guls, allowzeros, vecs, trace, l);
    StepKeeps(l, vecs0[l], vecs[l - 1], guls, owners[l], trace[l - 1], allowzeros, vecs[l], trace[l], j);
  }

  lemma StepKeeps(level: nat, v0: seq<LossRec>, prev: seq<LossRec>, guls: seq<real>, owner: seq<nat>,
                  items0: seq<real>, allowzeros: bool, v: seq<LossRec>, items: seq<real>, j: nat)
    requires LevelStep(level, v0, prev, guls, owner, items0, allowzeros, v, items) && j < |v0|
    ensures v[j].loss == v0[j].loss && v[j].agg_id == v0[j].agg_id && Indices(v[j]) == Indices(v0[j])
  {
    var p := PreparedAll(v0, guls, allowzeros);
    if !CopiesDown(v0, prev, allowzeros) {
      assert RecordStep(level, p, prev, guls, items0, LossTotal(v0, allowzeros), v, j);
    }
  }

  lemma RunKeepsWrites(vecs0: seq<seq<LossRec>>, owners: seq<seq<nat>>, guls: seq<real>, allowzeros: bool,
                       vecs: seq<seq<LossRec>>, trace: seq<seq<real>>, j: nat, sidx: int)
    requires Run(vecs0, owners, guls, allowzeros, vecs, trace, |vecs0|) && |vecs0| >= 2 && j < |vecs0[|vecs0| - 1]|
    ensures j < |vecs[|vecs0| - 1]| && Writes(vecs[|vecs0| - 1][j], sidx) == Writes(vecs0[|vecs0| - 1][j], sidx)
  {
    RunKeeps(vecs0, owners, guls, allowzeros, vecs, trace, |vecs0| - 1, j);
  }

  lemma RunInRange(vecs0: seq<seq<LossRec>>, owners: seq<seq<nat>>, guls: seq<real>, allowzeros: bool,
                   vecs: seq<seq<LossRec>>, trace: seq<seq<real>>)
    requires Input(vecs0, owners, guls) && Run(vecs0, owners, guls, allowzeros, vecs, trace, |vecs0|) && |vecs0| >= 2
    ensures |vecs[|vecs0| - 1]| == |vecs0[|vecs0| - 1]| && AllInRange(vecs[|vecs0| - 1], |guls|)
  {
    var top := |vecs0| - 1;
    assert InputAt(vecs0, owners, guls, top);
    InputInRange(vecs0[top], owners[top], guls);
    assert StepAt(vecs0, owners, guls, allowzeros, vecs, trace, top);
    forall j: nat | j < |vecs[top]| ensures InRange(Indices(vecs[top][j]), |guls|) {
      RunKeeps(vecs0, owners, guls, allowzeros, vecs, trace, top, j);
    }
  }

  lemma {:induction false} NothingWritten(vecs0: seq<seq<LossRec>>, owners: seq<seq<nat>>, guls: seq<real>,
                                          allowzeros: bool, vecs: seq<seq<LossRec>>, trace: seq<seq<real>>,
                                          items: seq<int>, xref: map<(int, int), int>, n: nat, sidx: int)
    requires Run(vecs0, owners, guls, allowzeros, vecs, trace, |vecs0|) && |vecs0| >= 2
    requires n <= |vecs[|vecs0| - 1]| && AllInRange(vecs[|vecs0| - 1], |items|)
    requires n <= |vecs0[|vecs0| - 1]| && !SomeWrites(vecs0[|vecs0| - 1], n, sidx)
    ensures AllWritten(vecs[|vecs0| - 1], items, 1, sidx, xref, n) == []
  {
    if n > 0 {
      NothingWritten(vecs0, owners, guls, allowzeros, vecs, trace, items, xref, n - 1, sidx);
      RunKeepsWrites(vecs0, owners, guls, allowzeros, vecs, trace, n - 1, sidx);
    }
  }
}
