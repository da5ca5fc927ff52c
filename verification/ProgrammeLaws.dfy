/**
  What a whole run of the financial module keeps: the ground-up loss of the event from level
  to level, and the ledger between the layers of a level.
*/
module ProgrammeLaws {
  import opened FinancialStructs
  import opened RealSums
  import opened CalcRules
  import opened RuleLaws
  import opened Hierarchy
  import opened FinancialModel

  function GroundUps(v: seq<LossRec>): (c: seq<real>)
    ensures |c| == |v| && forall i :: 0 <= i < |v| ==> c[i] == GroundUp(v[i])
  {
    if v == [] then [] else GroundUps(v[..|v| - 1]) + [GroundUp(v[|v| - 1])]
  }

  /** The ground-up loss a vector accounts for. */
  function Total(v: seq<LossRec>): real { Sum(GroundUps(v)) }

  // ---------- combining aggregates ----------

  /** Combining records adds up their ground-up losses. */
  lemma {:induction false} GatheredGroundUp(below: seq<LossRec>, parent: seq<nat>, j: nat)
    requires |below| == |parent|
    ensures SumWhere(GroundUps(below), parent, j)
            == ChildSum(below, parent, j, Loss) + ChildSum(below, parent, j, Deductible)
               + ChildSum(below, parent, j, Over)
  {
    if below != [] {
      var n := |below| - 1;
      GatheredGroundUp(below[..n], parent[..n], j);
      assert below == below[..n] + [below[n]] && parent == parent[..n] + [parent[n]];
      GroundUpSnoc(below[..n], parent[..n], below[n], parent[n], j);
    }
  }

  lemma GroundUpSnoc(v: seq<LossRec>, parent: seq<nat>, x: LossRec, q: nat, j: nat)
    requires |v| == |parent|
    requires SumWhere(GroundUps(v), parent, j)
             == ChildSum(v, parent, j, Loss) + ChildSum(v, parent, j, Deductible) + ChildSum(v, parent, j, Over)
    ensures var w, top := v + [x], parent + [q];
            SumWhere(GroundUps(w), top, j)
            == ChildSum(w, top, j, Loss) + ChildSum(w, top, j, Deductible) + ChildSum(w, top, j, Over)
  {
    ChildSumSnoc(v, parent, x, q, j, Loss);
    ChildSumSnoc(v, parent, x, q, j, Deductible);
    ChildSumSnoc(v, parent, x, q, j, Over);
    SumWhereSnoc(GroundUps(v), parent, GroundUp(x), q, j);
    assert GroundUps(v + [x]) == GroundUps(v) + [GroundUp(x)];
  }

  lemma SumWhereSnoc(s: seq<real>, owner: seq<nat>, a: real, q: nat, k: nat)
    requires |s| == |owner|
    ensures SumWhere(s + [a], owner + [q], k) == SumWhere(s, owner, k) + if q == k then a else 0.0
  {
    assert (s + [a])[..|s|] == s && (owner + [q])[..|s|] == owner;
  }

  /** Combining sound records gives a sound record. */
  lemma {:induction false} GatheredSound(below: seq<LossRec>, parent: seq<nat>, j: nat)
    requires |below| == |parent| && forall i :: 0 <= i < |below| && parent[i] == j ==> Sound(below[i])
    ensures ChildSum(below, parent, j, Loss) >= 0.0 && ChildSum(below, parent, j, Deductible) >= 0.0
    ensures ChildSum(below, parent, j, Over) >= 0.0
    ensures ChildSum(below, parent, j, Loss) + ChildSum(below, parent, j, Under) >= 0.0
  {
    if below != [] {
      var n := |below| - 1;
      GatheredSound(below[..n], parent[..n], j);
      assert below == below[..n] + [below[n]] && parent == parent[..n] + [parent[n]];
      forall f: Field
        ensures ChildSum(below, parent, j, f)
                == ChildSum(below[..n], parent[..n], j, f) + if parent[n] == j then Get(below[n], f) else 0.0
      {
        ChildSumSnoc(below[..n], parent[..n], below[n], parent[n], j, f);
      }
    }
  }

  /** No limit has been applied: nothing is cut off, and the only room is what deductibles took. */
  predicate LimitFree(x: LossRec) { x.over_limit == 0.0 && x.under_limit == x.effective_deductible }

  lemma {:induction false} GatheredLimitFree(below: seq<LossRec>, parent: seq<nat>, j: nat)
    requires |below| == |parent| && forall i :: 0 <= i < |below| && parent[i] == j ==> LimitFree(below[i])
    ensures ChildSum(below, parent, j, Over) == 0.0
    ensures ChildSum(below, parent, j, Under) == ChildSum(below, parent, j, Deductible)
  {
    if below != [] {
      var n := |below| - 1;
      GatheredLimitFree(below[..n], parent[..n], j);
      assert below == below[..n] + [below[n]] && parent == parent[..n] + [parent[n]];
      ChildSumSnoc(below[..n], parent[..n], below[n], parent[n], j, Over);
      ChildSumSnoc(below[..n], parent[..n], below[n], parent[n], j, Under);
      ChildSumSnoc(below[..n], parent[..n], below[n], parent[n], j, Deductible);
    }
  }

  // ---------- one level ----------

  /** The records of a level as they are handed over, before its terms apply. */
  function HandedOver(s: Setup, level: nat, layer: nat, below: seq<LossRec>, parent: seq<nat>,
                      previous_layer: seq<LossRec>): (h: seq<LossRec>)
    requires |below| == |parent| && (layer > 1 ==> |s.Nodes(level, layer)| <= |previous_layer|)
    ensures |h| == |s.Nodes(level, layer)|
    ensures forall j :: 0 <= j < |h| ==>
              h[j] == Handed(s, level, layer, below, parent, s.Nodes(level, layer)[j],
                             if layer > 1 then previous_layer[j].retained_loss else 0.0, j)
  {
    seq(|s.Nodes(level, layer)|, j requires 0 <= j < |s.Nodes(level, layer)| =>
      Handed(s, level, layer, below, parent, s.Nodes(level, layer)[j],
             if layer > 1 then previous_layer[j].retained_loss else 0.0, j))
  }

  /** Handing over keeps the ground-up loss. */
  lemma HandedTotal(s: Setup, level: nat, layer: nat, below: seq<LossRec>, parent: seq<nat>,
                    previous_layer: seq<LossRec>)
    requires |below| == |parent| && (layer > 1 ==> |s.Nodes(level, layer)| <= |previous_layer|)
    requires forall i :: 0 <= i < |parent| ==> parent[i] < |s.Nodes(level, layer)|
    ensures Total(HandedOver(s, level, layer, below, parent, previous_layer)) == Total(below)
  {
    var h := HandedOver(s, level, layer, below, parent, previous_layer);
    forall j | 0 <= j < |h| ensures GroundUps(h)[j] == SumWhere(GroundUps(below), parent, j) {
      GatheredGroundUp(below, parent, j);
    }
    GroupsSum(GroundUps(below), parent, GroundUps(h));
  }

  ghost predicate AllSound(v: seq<LossRec>) { forall j :: 0 <= j < |v| ==> Sound(v[j]) }

  ghost predicate SensibleTivs(s: Setup) { forall level: nat, agg: int :: s.Tiv(level, agg) >= 0.0 }

  ghost predicate SensibleSetup(s: Setup) {
    (forall i :: 0 <= i < |s.profiles| ==> Sensible(s.profiles[i])) && SensibleTivs(s)
  }

  lemma HandedSound(s: Setup, level: nat, layer: nat, below: seq<LossRec>, parent: seq<nat>,
                    previous_layer: seq<LossRec>)
    requires |below| == |parent| && (layer > 1 ==> |s.Nodes(level, layer)| <= |previous_layer|)
    requires AllSound(below) && SensibleTivs(s)
    ensures AllSound(HandedOver(s, level, layer, below, parent, previous_layer))
  {
    var h := HandedOver(s, level, layer, below, parent, previous_layer);
    forall j | 0 <= j < |h| ensures Sound(h[j]) {
      GatheredSound(below, parent, j);
      assert s.Tiv(level, s.Nodes(level, layer)[j].agg_id) >= 0.0;
    }
  }

  /** The rule that is applied to a record; the no-op if none is. */
  function RuleFor(profiles: seq<Profile>, x: LossRec): Profile {
    if (x.loss > 0.0 || x.retained_loss > 0.0) && 0 < x.policytc_id < |profiles| then profiles[x.policytc_id]
    else NoopProfile()
  }

  lemma AppliedIsRule(profiles: seq<Profile>, x: LossRec, layer: int)
    ensures Applied(profiles, x, layer) == Rule(RuleFor(profiles, x), x, layer)
  {}

  function AllApplied(profiles: seq<Profile>, h: seq<LossRec>, layer: int): (r: seq<LossRec>)
    ensures |r| == |h| && forall j :: 0 <= j < |r| ==> r[j] == Applied(profiles, h[j], layer)
  {
    seq(|h|, j requires 0 <= j < |h| => Applied(profiles, h[j], layer))
  }

  /** The rule applied to a record is a direct one, and does not create ground-up loss from it. */
  predicate DirectRule(profiles: seq<Profile>, x: LossRec) {
    var p := RuleFor(profiles, x);
    Direct(p.calcrule_id) && Sensible(p) && !Creates(p, x)
  }

  predicate KeepsOwn(profiles: seq<Profile>, x: LossRec) { Keeps(RuleFor(profiles, x), x) }

  ghost predicate DirectRules(profiles: seq<Profile>, h: seq<LossRec>) {
    forall j :: 0 <= j < |h| ==> DirectRule(profiles, h[j])
  }

  ghost predicate AllKeep(profiles: seq<Profile>, h: seq<LossRec>) {
    forall j :: 0 <= j < |h| ==> KeepsOwn(profiles, h[j])
  }

  lemma RecordLaw(profiles: seq<Profile>, x: LossRec, layer: int)
    requires Sound(x) && DirectRule(profiles, x)
    ensures GroundUp(Applied(profiles, x, layer)) <= GroundUp(x)
    ensures GroundUp(Applied(profiles, x, layer)) == GroundUp(x) <==> KeepsOwn(profiles, x)
  {
    AppliedIsRule(profiles, x, layer);
    GroundUpLaw(RuleFor(profiles, x), x, layer);
  }

  /**
    The exact law of a level of direct rules: its terms never increase the ground-up loss
    accounted for, and they keep it if and only if every single record keeps its own.
  */
  lemma LevelLaw(profiles: seq<Profile>, h: seq<LossRec>, layer: int)
    requires AllSound(h) && DirectRules(profiles, h)
    ensures Total(AllApplied(profiles, h, layer)) <= Total(h)
    ensures Total(AllApplied(profiles, h, layer)) == Total(h) <==> AllKeep(profiles, h)
  {
    var r := AllApplied(profiles, h, layer);
    forall j | 0 <= j < |h|
      ensures GroundUps(r)[j] <= GroundUps(h)[j]
      ensures GroundUps(r)[j] == GroundUps(h)[j] <==> KeepsOwn(profiles, h[j])
    {
      RecordLaw(profiles, h[j], layer);
    }
    SumsAgree(GroundUps(r), GroundUps(h));
  }

  /** The live part of a calculated vector is its terms applied to what it was handed. */
  lemma AdvancedIsApplied(s: Setup, level: nat, layer: nat, below: seq<LossRec>, parent: seq<nat>,
                          previous_layer: seq<LossRec>, v: seq<LossRec>)
    requires Advanced(s, level, layer, below, parent, previous_layer, v)
    ensures v[..|s.Nodes(level, layer)|]
            == AllApplied(s.profiles, HandedOver(s, level, layer, below, parent, previous_layer), layer)
  {
    var h := HandedOver(s, level, layer, below, parent, previous_layer);
    forall j: nat | j < |h| ensures v[j] == AllApplied(s.profiles, h, layer)[j] {
      assert Processed(s, level, layer, below, parent, previous_layer, v, j);
    }
  }

  // ---------- programmes with one limit on the way up ----------

  /** Rules that keep the ground-up loss of any sound record. */
  predicate Tame(p: Profile) {
    p.calcrule_id in {6, 12, 16, NOOP} || (p.calcrule_id == 10 && p.deductible_1 == 0.0)
  }

  predicate LimitRule(p: Profile) { p.calcrule_id in {1, 3, 4, 5, 9, 14, 33} }

  lemma TameKeeps(p: Profile, x: LossRec, layer: int)
    requires Tame(p) && Sensible(p) && Sound(x)
    ensures GroundUp(Rule(p, x, layer)) == GroundUp(x) && Sound(Rule(p, x, layer))
    ensures LimitFree(x) ==> LimitFree(Rule(p, x, layer))
  {
    TimesNonNegative(p.deductible_1, x.accumulated_tiv);
    TimesNonNegative(x.loss, p.deductible_1);
    GroundUpLaw(p, x, layer);
  }

  lemma LimitRuleKeeps(p: Profile, x: LossRec, layer: int)
    requires LimitRule(p) && Sensible(p) && Sound(x) && x.over_limit == 0.0
    ensures GroundUp(Rule(p, x, layer)) == GroundUp(x) && Sound(Rule(p, x, layer))
  {
    GroundUpLaw(p, x, layer);
    SoundLaw(p, x, layer);
  }

  function NoopProfile(): Profile { Profile(NOOP, 0.0, 0.0, 0.0, 0.0, 0.0, 0.0, 0.0, 0.0) }

  /** The terms of an aggregate at a level and layer. */
  function ProfileAt(s: Setup, level: nat, layer: nat, j: nat): Profile {
    var nodes := s.Nodes(level, layer);
    if j < |nodes| && 0 < nodes[j].policytc_id < |s.profiles| then s.profiles[nodes[j].policytc_id] else NoopProfile()
  }

  /** No limit rule anywhere below the aggregate, nor at it. */
  ghost predicate Free(s: Setup, parents: seq<seq<nat>>, level: nat, layer: nat, j: nat)
    decreases level, 1
  {
    level == 0
    || (level < |parents| && !LimitRule(ProfileAt(s, level, layer, j)) && ChildrenFree(s, parents, level, layer, j))
  }

  ghost predicate ChildrenFree(s: Setup, parents: seq<seq<nat>>, level: nat, layer: nat, j: nat)
    requires 1 <= level < |parents|
    decreases level, 0
  {
    forall i: nat :: i < |parents[level]| && parents[level][i] == j ==>
      Free(s, parents, level - 1, s.FeedLayer(level, layer), i)
  }

  /** A limit rule is used only where no limit has been used below. */
  ghost predicate OneLimitAt(s: Setup, parents: seq<seq<nat>>, level: nat, layer: nat, j: nat)
    requires 1 <= level < |parents|
  {
    var p := ProfileAt(s, level, layer, j);
    Tame(p) || (LimitRule(p) && ChildrenFree(s, parents, level, layer, j))
  }

  ghost predicate OneLimit(s: Setup, parents: seq<seq<nat>>) {
    forall level: nat, layer: nat, j: nat ::
      1 <= level < |parents| && IsPlace(s, level, layer) && j < |s.Nodes(level, layer)| ==>
        OneLimitAt(s, parents, level, layer, j)
  }

  /** Sound records, limit-free where the programme says so. */
  ghost predicate Good(s: Setup, parents: seq<seq<nat>>, level: nat, layer: nat, v: seq<LossRec>) {
    AllSound(v) && forall j: nat :: j < |v| && Free(s, parents, level, layer, j) ==> LimitFree(v[j])
  }

  lemma RecordGood(s: Setup, parents: seq<seq<nat>>, level: nat, layer: nat, j: nat, x: LossRec)
    requires SensibleSetup(s) && 1 <= level < |parents| && j < |s.Nodes(level, layer)|
    requires OneLimitAt(s, parents, level, layer, j) && x.policytc_id == s.Nodes(level, layer)[j].policytc_id
    requires Sound(x) && (ChildrenFree(s, parents, level, layer, j) ==> LimitFree(x))
    ensures var y := Applied(s.profiles, x, layer);
            Sound(y) && GroundUp(y) == GroundUp(x) && (Free(s, parents, level, layer, j) ==> LimitFree(y))
  {
    var p := RuleFor(s.profiles, x);
    AppliedIsRule(s.profiles, x, layer);
    if Tame(p) { TameKeeps(p, x, layer); } else { LimitRuleKeeps(p, x, layer); }
  }

  lemma HandedLimitFree(s: Setup, parents: seq<seq<nat>>, level: nat, layer: nat, below: seq<LossRec>, j: nat)
    requires 1 <= level < |parents| && |below| == |parents[level]|
    requires Good(s, parents, level - 1, s.FeedLayer(level, layer), below)
    requires ChildrenFree(s, parents, level, layer, j)
    ensures ChildSum(below, parents[level], j, Over) == 0.0
    ensures ChildSum(below, parents[level], j, Under) == ChildSum(below, parents[level], j, Deductible)
  {
    forall i | 0 <= i < |below| && parents[level][i] == j ensures LimitFree(below[i]) {
      assert Free(s, parents, level - 1, s.FeedLayer(level, layer), i);
    }
    GatheredLimitFree(below, parents[level], j);
  }

  /** One level of such a programme keeps the ground-up loss and stays good. */
  lemma LevelGood(s: Setup, parents: seq<seq<nat>>, level: nat, layer: nat, below: seq<LossRec>,
                  previous_layer: seq<LossRec>)
    requires SensibleSetup(s) && OneLimit(s, parents) && 1 <= level < |parents| && IsPlace(s, level, layer)
    requires |below| == |parents[level]| && (layer > 1 ==> |s.Nodes(level, layer)| <= |previous_layer|)
    requires forall i :: 0 <= i < |below| ==> parents[level][i] < |s.Nodes(level, layer)|
    requires Good(s, parents, level - 1, s.FeedLayer(level, layer), below)
    ensures var r := AllApplied(s.profiles, HandedOver(s, level, layer, below, parents[level], previous_layer), layer);
            Good(s, parents, level, layer, r) && Total(r) == Total(below)
  {
    var h := HandedOver(s, level, layer, below, parents[level], previous_layer);
    var r := AllApplied(s.profiles, h, layer);
    HandedTotal(s, level, layer, below, parents[level], previous_layer);
    HandedSound(s, level, layer, below, parents[level], previous_layer);
    forall j: nat | j < |h|
      ensures Sound(r[j]) && GroundUp(r[j]) == GroundUp(h[j])
      ensures Free(s, parents, level, layer, j) ==> LimitFree(r[j])
    {
      if ChildrenFree(s, parents, level, layer, j) { HandedLimitFree(s, parents, level, layer, below, j); }
      RecordGood(s, parents, level, layer, j, h[j]);
    }
    assert GroundUps(r) == GroundUps(h);
  }

  // ---------- whole runs ----------

  /** The records of the aggregates of a level and layer. */
  function LiveAt(s: Setup, vecs: seq<seq<seq<LossRec>>>, level: nat, layer: nat): seq<LossRec> {
    var v := At(vecs, level, layer);
    if s.Width(level) <= |v| then v[..s.Width(level)] else v
  }

  /** A place whose layer the level really has. */
  predicate OwnPlace(s: Setup, level: nat, layer: nat) {
    level < |s.layers| && IsPlace(s, level, layer) && layer <= s.layers[level]
  }

  lemma LiveIsApplied(s: Setup, parents: seq<seq<nat>>, vecs: seq<seq<seq<LossRec>>>, level: nat, layer: nat)
    requires Fits(s, parents) && DoneBefore(s, parents, vecs, |s.levels|, 1)
    requires level >= 1 && OwnPlace(s, level, layer)
    ensures |FeedOf(s, vecs, level, layer)| == |parents[level]| && |s.Nodes(level, layer)| == s.Width(level)
    ensures layer > 1 ==> |s.Nodes(level, layer)| <= |At(vecs, level, layer - 1)|
    ensures LiveAt(s, vecs, level, layer)
            == AllApplied(s.profiles, HandedOver(s, level, layer, FeedOf(s, vecs, level, layer), parents[level],
                                                 At(vecs, level, layer - 1)), layer)
  {
    FitsHere(s, parents, level, layer);
    assert DoneAt(s, parents, vecs, level, layer);
    AdvancedIsApplied(s, level, layer, FeedOf(s, vecs, level, layer), parents[level], At(vecs, level, layer - 1),
                      At(vecs, level, layer));
  }

  /** The records a level and layer are handed. */
  function HandedAt(s: Setup, parents: seq<seq<nat>>, vecs: seq<seq<seq<LossRec>>>, level: nat,
                    layer: nat): seq<LossRec> {
    if level < |parents| && |FeedOf(s, vecs, level, layer)| == |parents[level]|
       && (layer > 1 ==> |s.Nodes(level, layer)| <= |At(vecs, level, layer - 1)|)
    then HandedOver(s, level, layer, FeedOf(s, vecs, level, layer), parents[level], At(vecs, level, layer - 1))
    else []
  }

  /** The terms of a record are direct, create nothing from it and hand it on sound. */
  predicate Handles(profiles: seq<Profile>, x: LossRec) {
    DirectRule(profiles, x) && StaysNonNegative(RuleFor(profiles, x), x) && StaysCovered(RuleFor(profiles, x), x)
  }

  ghost predicate AllHandled(profiles: seq<Profile>, h: seq<LossRec>) {
    forall j :: 0 <= j < |h| ==> Handles(profiles, h[j])
  }

  // ---------- the way up to a level and layer ----------

  /** The layer of level l on the way up to a level and layer. */
  function LayerOn(s: Setup, level: nat, layer: nat, l: nat): nat
    decreases level - l
  {
    if l >= level then layer else s.FeedLayer(l + 1, LayerOn(s, level, layer, l + 1))
  }

  function HandedOn(s: Setup, parents: seq<seq<nat>>, vecs: seq<seq<seq<LossRec>>>, level: nat, layer: nat, l: nat)
    : seq<LossRec>
  {
    HandedAt(s, parents, vecs, l, LayerOn(s, level, layer, l))
  }

  ghost predicate HandledOn(s: Setup, parents: seq<seq<nat>>, vecs: seq<seq<seq<LossRec>>>, level: nat, layer: nat,
                            l: nat) {
    AllHandled(s.profiles, HandedOn(s, parents, vecs, level, layer, l))
  }

  ghost predicate KeepsOn(s: Setup, parents: seq<seq<nat>>, vecs: seq<seq<seq<LossRec>>>, level: nat, layer: nat,
                          l: nat) {
    AllKeep(s.profiles, HandedOn(s, parents, vecs, level, layer, l))
  }

  /** So it is for every record on the way up to a level and layer. */
  ghost predicate PathHandled(s: Setup, parents: seq<seq<nat>>, vecs: seq<seq<seq<LossRec>>>, level: nat, layer: nat) {
    forall l: nat :: 1 <= l <= level ==> HandledOn(s, parents, vecs, level, layer, l)
  }

  /** Every record on the way up to a level and layer passes the guard of its rule. */
  ghost predicate PathKeeps(s: Setup, parents: seq<seq<nat>>, vecs: seq<seq<seq<LossRec>>>, level: nat, layer: nat) {
    forall l: nat :: 1 <= l <= level ==> KeepsOn(s, parents, vecs, level, layer, l)
  }

  lemma HandledSound(profiles: seq<Profile>, h: seq<LossRec>, layer: int)
    requires AllSound(h) && AllHandled(profiles, h)
    ensures AllSound(AllApplied(profiles, h, layer))
  {
    forall j | 0 <= j < |h| ensures Sound(AllApplied(profiles, h, layer)[j]) {
      AppliedIsRule(profiles, h[j], layer);
      SoundLaw(RuleFor(profiles, h[j]), h[j], layer);
    }
  }

  /** A place is its terms applied to what it is handed by the place that feeds it. */
  ghost predicate PlaceApplies(s: Setup, parents: seq<seq<nat>>, vecs: seq<seq<seq<LossRec>>>, level: nat, layer: nat) {
    && 0 < level < |parents| && FeedOf(s, vecs, level, layer) == LiveAt(s, vecs, level - 1, s.FeedLayer(level, layer))
    && |FeedOf(s, vecs, level, layer)| == |parents[level]|
    && (layer > 1 ==> |s.Nodes(level, layer)| <= |At(vecs, level, layer - 1)|)
    && (forall i :: 0 <= i < |parents[level]| ==> parents[level][i] < |s.Nodes(level, layer)|)
    && LiveAt(s, vecs, level, layer) == AllApplied(s.profiles, HandedAt(s, parents, vecs, level, layer), layer)
  }

  lemma PlaceOfRun(s: Setup, parents: seq<seq<nat>>, vecs: seq<seq<seq<LossRec>>>, level: nat, layer: nat)
    requires Fits(s, parents) && DoneBefore(s, parents, vecs, |s.levels|, 1)
    requires level > 0 && OwnPlace(s, level, layer)
    ensures OwnPlace(s, level - 1, s.FeedLayer(level, layer)) && PlaceApplies(s, parents, vecs, level, layer)
  {
    FitsHere(s, parents, level, layer);
    LiveIsApplied(s, parents, vecs, level, layer);
  }

  lemma {:induction false} LayerOnIsOwn(s: Setup, parents: seq<seq<nat>>, level: nat, layer: nat, l: nat)
    requires Fits(s, parents) && OwnPlace(s, level, layer) && l <= level
    ensures OwnPlace(s, l, LayerOn(s, level, layer, l))
    decreases level - l
  {
    if l < level {
      LayerOnIsOwn(s, parents, level, layer, l + 1);
      FitsHere(s, parents, l + 1, LayerOn(s, level, layer, l + 1));
    }
  }

  /** What a place is handed is sound and has the total of the place that feeds it. */
  lemma PlaceIsHanded(s: Setup, parents: seq<seq<nat>>, vecs: seq<seq<seq<LossRec>>>, level: nat, layer: nat)
    requires SensibleTivs(s) && PlaceApplies(s, parents, vecs, level, layer)
    requires AllSound(FeedOf(s, vecs, level, layer))
    ensures var h := HandedAt(s, parents, vecs, level, layer);
            AllSound(h) && Total(h) == Total(FeedOf(s, vecs, level, layer))
  {
    var below, previous_layer := FeedOf(s, vecs, level, layer), At(vecs, level, layer - 1);
    HandedTotal(s, level, layer, below, parents[level], previous_layer);
    HandedSound(s, level, layer, below, parents[level], previous_layer);
  }

  lemma PlaceLaw(s: Setup, parents: seq<seq<nat>>, vecs: seq<seq<seq<LossRec>>>, level: nat, layer: nat)
    requires SensibleTivs(s) && PlaceApplies(s, parents, vecs, level, layer)
    requires AllSound(FeedOf(s, vecs, level, layer)) && AllHandled(s.profiles, HandedAt(s, parents, vecs, level, layer))
    ensures AllSound(LiveAt(s, vecs, level, layer))
    ensures Total(LiveAt(s, vecs, level, layer)) <= Total(FeedOf(s, vecs, level, layer))
    ensures Total(LiveAt(s, vecs, level, layer)) == Total(FeedOf(s, vecs, level, layer))
            <==> AllKeep(s.profiles, HandedAt(s, parents, vecs, level, layer))
  {
    PlaceIsHanded(s, parents, vecs, level, layer);
    HandledSound(s.profiles, HandedAt(s, parents, vecs, level, layer), layer);
    LevelLaw(s.profiles, HandedAt(s, parents, vecs, level, layer), layer);
  }

  function LiveOn(s: Setup, vecs: seq<seq<seq<LossRec>>>, level: nat, layer: nat, l: nat): seq<LossRec> {
    LiveAt(s, vecs, l, LayerOn(s, level, layer, l))
  }

  lemma StepLaw(s: Setup, parents: seq<seq<nat>>, vecs: seq<seq<seq<LossRec>>>, level: nat, layer: nat, l: nat)
    requires Fits(s, parents) && DoneBefore(s, parents, vecs, |s.levels|, 1) && SensibleTivs(s)
    requires OwnPlace(s, level, layer) && PathHandled(s, parents, vecs, level, layer) && 1 <= l <= level
    requires AllSound(LiveOn(s, vecs, level, layer, l - 1))
    ensures AllSound(LiveOn(s, vecs, level, layer, l))
    ensures Total(LiveOn(s, vecs, level, layer, l)) <= Total(LiveOn(s, vecs, level, layer, l - 1))
    ensures Total(LiveOn(s, vecs, level, layer, l)) == Total(LiveOn(s, vecs, level, layer, l - 1))
            <==> KeepsOn(s, parents, vecs, level, layer, l)
  {
    LayerOnIsOwn(s, parents, level, layer, l);
    PlaceOfRun(s, parents, vecs, l, LayerOn(s, level, layer, l));
    assert HandledOn(s, parents, vecs, level, layer, l);
    PlaceLaw(s, parents, vecs, l, LayerOn(s, level, layer, l));
  }

  lemma {:induction false} RunSound(s: Setup, parents: seq<seq<nat>>, vecs: seq<seq<seq<LossRec>>>, level: nat,
                                    layer: nat, l: nat)
    requires Fits(s, parents) && DoneBefore(s, parents, vecs, |s.levels|, 1) && SensibleTivs(s)
    requires OwnPlace(s, level, layer) && PathHandled(s, parents, vecs, level, layer) && l <= level
    requires AllSound(LiveOn(s, vecs, level, layer, 0))
    ensures AllSound(LiveOn(s, vecs, level, layer, l))
  {
    if l > 0 {
      RunSound(s, parents, vecs, level, layer, l - 1);
      StepLaw(s, parents, vecs, level, layer, l);
    }
  }

  function TotalsOn(s: Setup, vecs: seq<seq<seq<LossRec>>>, level: nat, layer: nat): (r: seq<real>)
    ensures |r| == level + 1 && forall l: nat :: l <= level ==> r[l] == Total(LiveOn(s, vecs, level, layer, l))
  {
    seq(level + 1, l requires 0 <= l => Total(LiveOn(s, vecs, level, layer, l)))
  }

  ghost function KeptOn(s: Setup, parents: seq<seq<nat>>, vecs: seq<seq<seq<LossRec>>>, level: nat, layer: nat)
    : (r: seq<bool>)
    ensures |r| == level + 1 && forall l: nat :: l <= level ==> r[l] == KeepsOn(s, parents, vecs, level, layer, l)
  {
    seq(level + 1, l requires 0 <= l => KeepsOn(s, parents, vecs, level, layer, l))
  }

  /** Steps that never rise end where they start exactly if none falls. */
  lemma {:induction false} Descent(totals: seq<real>, kept: seq<bool>, n: nat)
    requires n < |totals| == |kept|
    requires forall l :: 1 <= l < |totals| ==>
               totals[l] <= totals[l - 1] && (totals[l] == totals[l - 1] <==> kept[l])
    ensures totals[n] <= totals[0]
    ensures totals[n] == totals[0] <==> forall l :: 1 <= l <= n ==> kept[l]
  {
    if n > 0 { Descent(totals, kept, n - 1); }
  }

  /** No level exceeds level 0, and it reaches it exactly if every record on the way keeps its own. */
  lemma RunLaw(s: Setup, parents: seq<seq<nat>>, vecs: seq<seq<seq<LossRec>>>, level: nat, layer: nat)
    requires Fits(s, parents) && DoneBefore(s, parents, vecs, |s.levels|, 1) && SensibleTivs(s)
    requires OwnPlace(s, level, layer) && PathHandled(s, parents, vecs, level, layer)
    requires AllSound(LiveOn(s, vecs, level, layer, 0))
    ensures Total(LiveOn(s, vecs, level, layer, level)) <= Total(LiveOn(s, vecs, level, layer, 0))
    ensures Total(LiveOn(s, vecs, level, layer, level)) == Total(LiveOn(s, vecs, level, layer, 0))
            <==> PathKeeps(s, parents, vecs, level, layer)
  {
    var totals, kept := TotalsOn(s, vecs, level, layer), KeptOn(s, parents, vecs, level, layer);
    forall l: nat | 1 <= l <= level
      ensures totals[l] <= totals[l - 1] && (totals[l] == totals[l - 1] <==> kept[l])
    {
      RunStep(s, parents, vecs, level, layer, l, totals, kept);
    }
    Descent(totals, kept, level);
  }

  lemma RunStep(s: Setup, parents: seq<seq<nat>>, vecs: seq<seq<seq<LossRec>>>, level: nat, layer: nat, l: nat,
                totals: seq<real>, kept: seq<bool>)
    requires Fits(s, parents) && DoneBefore(s, parents, vecs, |s.levels|, 1) && SensibleTivs(s)
    requires OwnPlace(s, level, layer) && PathHandled(s, parents, vecs, level, layer) && 1 <= l <= level
    requires AllSound(LiveOn(s, vecs, level, layer, 0))
    requires totals == TotalsOn(s, vecs, level, layer) && kept == KeptOn(s, parents, vecs, level, layer)
    ensures totals[l] <= totals[l - 1] && (totals[l] == totals[l - 1] <==> kept[l])
  {
    RunSound(s, parents, vecs, level, layer, l - 1);
    StepLaw(s, parents, vecs, level, layer, l);
  }

  /** A record whose terms are tame, or limit it where nothing is over a limit yet. */
  predicate Calm(profiles: seq<Profile>, x: LossRec) {
    var p := RuleFor(profiles, x);
    Sensible(p) && (Tame(p) || (LimitRule(p) && x.over_limit == 0.0))
  }

  ghost predicate AllCalm(profiles: seq<Profile>, h: seq<LossRec>) { forall j :: 0 <= j < |h| ==> Calm(profiles, h[j]) }

  ghost predicate CalmOn(s: Setup, parents: seq<seq<nat>>, vecs: seq<seq<seq<LossRec>>>, level: nat, layer: nat,
                         l: nat) {
    AllCalm(s.profiles, HandedOn(s, parents, vecs, level, layer, l))
  }

  ghost predicate PathCalm(s: Setup, parents: seq<seq<nat>>, vecs: seq<seq<seq<LossRec>>>, level: nat, layer: nat) {
    forall l: nat :: 1 <= l <= level ==> CalmOn(s, parents, vecs, level, layer, l)
  }

  lemma CalmLevel(profiles: seq<Profile>, h: seq<LossRec>, layer: int)
    requires AllSound(h) && AllCalm(profiles, h)
    ensures AllSound(AllApplied(profiles, h, layer)) && Total(AllApplied(profiles, h, layer)) == Total(h)
  {
    var r := AllApplied(profiles, h, layer);
    forall j | 0 <= j < |h| ensures Sound(r[j]) && GroundUp(r[j]) == GroundUp(h[j]) {
      var p := RuleFor(profiles, h[j]);
      AppliedIsRule(profiles, h[j], layer);
      if Tame(p) { TameKeeps(p, h[j], layer); } else { LimitRuleKeeps(p, h[j], layer); }
    }
    assert GroundUps(r) == GroundUps(h);
  }

  lemma CalmStep(s: Setup, parents: seq<seq<nat>>, vecs: seq<seq<seq<LossRec>>>, level: nat, layer: nat, l: nat)
    requires Fits(s, parents) && DoneBefore(s, parents, vecs, |s.levels|, 1) && SensibleTivs(s)
    requires OwnPlace(s, level, layer) && PathCalm(s, parents, vecs, level, layer) && 1 <= l <= level
    requires AllSound(LiveOn(s, vecs, level, layer, l - 1))
    ensures AllSound(LiveOn(s, vecs, level, layer, l))
    ensures Total(LiveOn(s, vecs, level, layer, l)) == Total(LiveOn(s, vecs, level, layer, l - 1))
  {
    LayerOnIsOwn(s, parents, level, layer, l);
    PlaceOfRun(s, parents, vecs, l, LayerOn(s, level, layer, l));
    assert CalmOn(s, parents, vecs, level, layer, l);
    PlaceIsHanded(s, parents, vecs, l, LayerOn(s, level, layer, l));
    CalmLevel(s.profiles, HandedOn(s, parents, vecs, level, layer, l), LayerOn(s, level, layer, l));
  }

  lemma {:induction false} RunCalm(s: Setup, parents: seq<seq<nat>>, vecs: seq<seq<seq<LossRec>>>, level: nat,
                                   layer: nat,
                                   l: nat)
    requires Fits(s, parents) && DoneBefore(s, parents, vecs, |s.levels|, 1) && SensibleTivs(s)
    requires OwnPlace(s, level, layer) && PathCalm(s, parents, vecs, level, layer) && l <= level
    requires AllSound(LiveOn(s, vecs, level, layer, 0))
    ensures AllSound(LiveOn(s, vecs, level, layer, l))
    ensures Total(LiveOn(s, vecs, level, layer, l)) == Total(LiveOn(s, vecs, level, layer, 0))
  {
    if l > 0 {
      RunCalm(s, parents, vecs, level, layer, l - 1);
      CalmStep(s, parents, vecs, level, layer, l);
    }
  }

  lemma {:induction false} RunGood(s: Setup, parents: seq<seq<nat>>, vecs: seq<seq<seq<LossRec>>>, level: nat,
                                   layer: nat)
    requires Fits(s, parents) && DoneBefore(s, parents, vecs, |s.levels|, 1)
    requires SensibleSetup(s) && OneLimit(s, parents) && OwnPlace(s, level, layer)
    requires Good(s, parents, 0, 1, LiveAt(s, vecs, 0, 1))
    ensures Good(s, parents, level, layer, LiveAt(s, vecs, level, layer))
    ensures Total(LiveAt(s, vecs, level, layer)) == Total(LiveAt(s, vecs, 0, 1))
    decreases level
  {
    if level > 0 {
      var k := s.FeedLayer(level, layer);
      FitsHere(s, parents, level, layer);
      RunGood(s, parents, vecs, level - 1, k);
      LiveIsApplied(s, parents, vecs, level, layer);
      LevelGood(s, parents, level, layer, FeedOf(s, vecs, level, layer), At(vecs, level, layer - 1));
    }
  }

  lemma StartTotal(v: seq<LossRec>, guls: seq<real>, tivs: seq<real>, owner: seq<nat>, nodes: seq<PolicyNode>)
    requires Started(v, guls, tivs, owner, nodes) && forall i :: 0 <= i < |owner| ==> owner[i] < |nodes|
    ensures Total(v) == Sum(guls)
  {
    forall j | 0 <= j < |v| ensures GroundUps(v)[j] == SumWhere(guls, owner, j) {
      if j !in owner { ZeroSumWhere(guls, owner, j); }
    }
    GroupsSum(guls, owner, GroundUps(v));
  }

  lemma {:induction false} LastTivNonNegative(tivs: seq<real>, owner: seq<nat>, j: nat)
    requires |tivs| == |owner| && forall i :: 0 <= i < |tivs| ==> tivs[i] >= 0.0
    ensures LastTiv(tivs, owner, j) >= 0.0
  {
    if tivs != [] { LastTivNonNegative(tivs[..|tivs| - 1], owner[..|owner| - 1], j); }
  }

  lemma StartGood(s: Setup, parents: seq<seq<nat>>, v: seq<LossRec>, guls: seq<real>, tivs: seq<real>,
                  owner: seq<nat>, nodes: seq<PolicyNode>)
    requires Started(v, guls, tivs, owner, nodes)
    requires forall i :: 0 <= i < |guls| ==> guls[i] >= 0.0 && tivs[i] >= 0.0
    ensures Good(s, parents, 0, 1, v)
  {
    forall j | 0 <= j < |v| ensures Sound(v[j]) && LimitFree(v[j]) {
      SumWhereNonNegative(guls, owner, j);
      LastTivNonNegative(tivs, owner, j);
    }
  }

  /** Where a sample starts: level 0 has the ground-up loss of the event's items. */
  ghost predicate StartsFrom(s: Setup, vecs: seq<seq<seq<LossRec>>>, items: seq<int>, guls: seq<real>, tivs: seq<real>,
                             owner: seq<nat>)
  {
    && ItemsFit(s, items, owner) && Started(At(vecs, 0, 1), guls, tivs, owner, s.Nodes(0, 1))
    && forall i :: 0 <= i < |guls| ==> guls[i] >= 0.0 && tivs[i] >= 0.0
  }

  lemma LevelZero(s: Setup, parents: seq<seq<nat>>, vecs: seq<seq<seq<LossRec>>>, items: seq<int>,
                  guls: seq<real>, tivs: seq<real>, owner: seq<nat>)
    requires StartsFrom(s, vecs, items, guls, tivs, owner)
    ensures Total(LiveAt(s, vecs, 0, 1)) == Sum(guls) && Good(s, parents, 0, 1, LiveAt(s, vecs, 0, 1))
  {
    var v := At(vecs, 0, 1);
    assert LiveAt(s, vecs, 0, 1) == v;
    StartTotal(v, guls, tivs, owner, s.Nodes(0, 1));
    StartGood(s, parents, v, guls, tivs, owner, s.Nodes(0, 1));
  }

  /**
    The whole-run law. No level and layer of a run of direct rules accounts for more than the
    ground-up loss of the event's items, and it accounts for all of it if and only if every
    record on the way up passes the guard of its rule.
  */
  lemma GroundUpBound(s: Setup, parents: seq<seq<nat>>, vecs: seq<seq<seq<LossRec>>>, items: seq<int>,
                      guls: seq<real>, tivs: seq<real>, owner: seq<nat>, level: nat, layer: nat)
    requires Fits(s, parents) && DoneBefore(s, parents, vecs, |s.levels|, 1) && SensibleTivs(s)
    requires StartsFrom(s, vecs, items, guls, tivs, owner)
    requires OwnPlace(s, level, layer) && PathHandled(s, parents, vecs, level, layer)
    ensures AllSound(LiveAt(s, vecs, level, layer)) && Total(LiveAt(s, vecs, level, layer)) <= Sum(guls)
    ensures Total(LiveAt(s, vecs, level, layer)) == Sum(guls) <==> PathKeeps(s, parents, vecs, level, layer)
  {
    LevelZero(s, parents, vecs, items, guls, tivs, owner);
    LayerOnIsOwn(s, parents, level, layer, 0);
    RunSound(s, parents, vecs, level, layer, level);
    RunLaw(s, parents, vecs, level, layer);
  }

  /**
    Ground-up conservation: where every record on the way up has tame terms, or a limit and
    nothing yet over one, the aggregates account together for exactly the ground-up loss of the
    event's items, and no loss, deductible or over-limit is negative.
  */
  lemma GroundUpConserved(s: Setup, parents: seq<seq<nat>>, vecs: seq<seq<seq<LossRec>>>, items: seq<int>,
                          guls: seq<real>, tivs: seq<real>, owner: seq<nat>, level: nat, layer: nat)
    requires Fits(s, parents) && DoneBefore(s, parents, vecs, |s.levels|, 1) && SensibleTivs(s)
    requires StartsFrom(s, vecs, items, guls, tivs, owner)
    requires OwnPlace(s, level, layer) && PathCalm(s, parents, vecs, level, layer)
    ensures Total(LiveAt(s, vecs, level, layer)) == Sum(guls) && AllSound(LiveAt(s, vecs, level, layer))
  {
    LevelZero(s, parents, vecs, items, guls, tivs, owner);
    LayerOnIsOwn(s, parents, level, layer, 0);
    RunCalm(s, parents, vecs, level, layer, level);
  }

  /** So it is, whatever the losses, for a programme that uses at most one limit on any way up. */
  lemma OneLimitConserves(s: Setup, parents: seq<seq<nat>>, vecs: seq<seq<seq<LossRec>>>, items: seq<int>,
                          guls: seq<real>, tivs: seq<real>, owner: seq<nat>, level: nat, layer: nat)
    requires Fits(s, parents) && DoneBefore(s, parents, vecs, |s.levels|, 1)
    requires SensibleSetup(s) && OneLimit(s, parents) && StartsFrom(s, vecs, items, guls, tivs, owner)
    requires OwnPlace(s, level, layer)
    ensures Total(LiveAt(s, vecs, level, layer)) == Sum(guls) && AllSound(LiveAt(s, vecs, level, layer))
  {
    LevelZero(s, parents, vecs, items, guls, tivs, owner);
    RunGood(s, parents, vecs, level, layer);
  }

  // ---------- the ledger between layers ----------

  /** What the first layers of a level pay on aggregate j. */
  function PaidBy(vecs: seq<seq<seq<LossRec>>>, level: nat, layers: nat, j: nat): real {
    if layers == 0 then 0.0
    else PaidBy(vecs, level, layers - 1, j)
         + if j < |At(vecs, level, layers)| then At(vecs, level, layers)[j].loss else 0.0
  }

  /** The record of aggregate j before the terms of a layer apply. */
  function Incoming(s: Setup, parents: seq<seq<nat>>, vecs: seq<seq<seq<LossRec>>>, level: nat, layer: nat,
                    j: nat): LossRec
    requires level < |parents| && |FeedOf(s, vecs, level, layer)| == |parents[level]|
    requires j < |s.Nodes(level, layer)| && (layer > 1 ==> |s.Nodes(level, layer)| <= |At(vecs, level, layer - 1)|)
  {
    HandedOver(s, level, layer, FeedOf(s, vecs, level, layer), parents[level], At(vecs, level, layer - 1))[j]
  }

  /** At every layer up to this one, aggregate j has terms that keep the ledger. */
  ghost predicate LedgerTerms(s: Setup, level: nat, layer: nat, j: nat) {
    forall k: nat :: 1 <= k <= layer ==> KeepsLedger(ProfileAt(s, level, k, j).calcrule_id)
  }

  lemma SameFeed(s: Setup, vecs: seq<seq<seq<LossRec>>>, level: nat, layer: nat)
    requires 1 <= level <= |s.layers| && s.layers[level - 1] == 1 && layer >= 1
    ensures FeedOf(s, vecs, level, layer) == FeedOf(s, vecs, level, 1)
  {}

  predicate Untouched(x: LossRec) { x.loss <= 0.0 && x.retained_loss <= 0.0 }

  lemma LedgerStep(profiles: seq<Profile>, x: LossRec, layer: int)
    requires 0 < x.policytc_id < |profiles| && KeepsLedger(profiles[x.policytc_id].calcrule_id)
    ensures var y := Applied(profiles, x, layer);
            if Untouched(x) then y == x
            else y.loss + y.retained_loss
                 == if layer > 1 then x.previous_layer_retained_loss else x.loss + x.retained_loss
  {
    LedgerLaw(profiles[x.policytc_id], x, layer);
  }

  /**
    The layer ledger: above a level with one layer, what all layers have paid on an aggregate
    and what the last of them retains is what the aggregate was handed.
  */
  lemma {:induction false} LayerLedger(s: Setup, parents: seq<seq<nat>>, vecs: seq<seq<seq<LossRec>>>, level: nat,
                                       layer: nat, j: nat)
    requires Fits(s, parents) && DoneBefore(s, parents, vecs, |s.levels|, 1)
    requires level >= 1 && layer >= 1 && OwnPlace(s, level, layer) && s.layers[level - 1] == 1 && j < s.Width(level)
    requires LedgerTerms(s, level, layer, j)
    requires |FeedOf(s, vecs, level, 1)| == |parents[level]|
    requires ChildSum(FeedOf(s, vecs, level, 1), parents[level], j, Loss) >= 0.0
    ensures var below := FeedOf(s, vecs, level, 1);
            j < |At(vecs, level, layer)|
            && PaidBy(vecs, level, layer, j) + At(vecs, level, layer)[j].retained_loss
               == ChildSum(below, parents[level], j, Loss) + ChildSum(below, parents[level], j, Retained)
            && (ChildSum(below, parents[level], j, Loss) <= 0.0
                && ChildSum(below, parents[level], j, Retained) <= 0.0 ==>
                  At(vecs, level, layer)[j].retained_loss == ChildSum(below, parents[level], j, Retained))
    decreases layer
  {
    LiveIsApplied(s, parents, vecs, level, layer);
    SameFeed(s, vecs, level, layer);
    var x := Incoming(s, parents, vecs, level, layer, j);
    assert LiveAt(s, vecs, level, layer)[j] == Applied(s.profiles, x, layer);
    assert KeepsLedger(ProfileAt(s, level, layer, j).calcrule_id);
    LedgerStep(s.profiles, x, layer);
    if layer > 1 {
      LayerLedger(s, parents, vecs, level, layer - 1, j);
    }
  }

  /**
    A no-op layer hands on the incoming loss whole: the ledger survives it exactly if the
    layers before have paid nothing.
  */
  lemma NoopLedger(s: Setup, parents: seq<seq<nat>>, vecs: seq<seq<seq<LossRec>>>, level: nat, layer: nat, j: nat)
    requires Fits(s, parents) && DoneBefore(s, parents, vecs, |s.levels|, 1)
    requires level >= 1 && layer > 1 && OwnPlace(s, level, layer) && s.layers[level - 1] == 1 && j < s.Width(level)
    requires LedgerTerms(s, level, layer - 1, j) && ProfileAt(s, level, layer, j).calcrule_id == NOOP
    requires |FeedOf(s, vecs, level, 1)| == |parents[level]|
    requires ChildSum(FeedOf(s, vecs, level, 1), parents[level], j, Loss) >= 0.0
    ensures var below := FeedOf(s, vecs, level, 1);
            j < |At(vecs, level, layer)|
            && (PaidBy(vecs, level, layer, j) + At(vecs, level, layer)[j].retained_loss
                == ChildSum(below, parents[level], j, Loss) + ChildSum(below, parents[level], j, Retained)
                <==> PaidBy(vecs, level, layer - 1, j) == 0.0)
  {
    LiveIsApplied(s, parents, vecs, level, layer);
    SameFeed(s, vecs, level, layer);
    var x := Incoming(s, parents, vecs, level, layer, j);
    assert LiveAt(s, vecs, level, layer)[j] == Applied(s.profiles, x, layer) == x;
  }
}
