/**
  What the calculation rules do to the ground-up loss they account for, and to the ledger
  between layers.

  The ground-up loss of a record is what is still payable plus what deductibles have taken
  plus what limits have cut off. The direct insurance rules move loss between the three.
  Which of them keep the sum, lose some or create some, and on which records, is stated
  exactly; only rule 8 ever creates any.
*/
module RuleLaws {
  import opened FinancialStructs
  import opened RealSums
  import opened CalcRules

  function GroundUp(x: LossRec): real { x.loss + x.effective_deductible + x.over_limit }

  /** The direct insurance rules: everything but attachment points, shares and rule 20. */
  predicate Direct(id: int) {
    (1 <= id <= 16 && id != 2) || id == 19 || id == 21 || id == 26 || id == 33 || id == 35 || id == 36 || id == NOOP
  }

  /** A percentage or amount is not negative. */
  predicate Sensible(p: Profile) {
    p.deductible_1 >= 0.0 && p.deductible_2 >= 0.0 && p.deductible_3 >= 0.0 && p.limit_1 >= 0.0
    && p.attachment_1 >= 0.0 && p.share_1 >= 0.0 && p.share_2 >= 0.0 && p.share_3 >= 0.0
  }

  /** A record the levels below can hand up. The under-limit alone may be negative: rule 5 makes it so. */
  predicate Sound(x: LossRec) {
    x.loss >= 0.0 && x.effective_deductible >= 0.0 && x.over_limit >= 0.0
    && x.loss + x.under_limit >= 0.0 && x.accumulated_tiv >= 0.0
  }

  // ---------- when a rule keeps the ground-up loss ----------

  /** The deductible a minimum-maximum rule compares with its bounds. */
  function FlatOrPercent(p: Profile, x: LossRec): real {
    var id := p.calcrule_id;
    if id == 19 || id == 26 || id == 35 then Times(x.loss, p.deductible_1)
    else if id == 21 then Min(x.loss, Times(x.accumulated_tiv, p.deductible_1))
    else p.deductible_1
  }

  function MaximumOf(p: Profile, x: LossRec): real {
    var id := p.calcrule_id;
    if id == 19 || id == 26 || id == 35 || id == 36 then Maximum(p.deductible_3)
    else if id == 11 then FlatOrPercent(p, x) + x.effective_deductible
    else p.deductible_3
  }

  function MinimumOf(p: Profile, x: LossRec): real {
    if p.calcrule_id == 10 then FlatOrPercent(p, x) + x.effective_deductible else p.deductible_2
  }

  predicate CapApplies(p: Profile, x: LossRec) {
    FlatOrPercent(p, x) + x.effective_deductible > MaximumOf(p, x)
  }

  predicate RaiseApplies(p: Profile, x: LossRec) {
    !CapApplies(p, x) && FlatOrPercent(p, x) + x.effective_deductible < MinimumOf(p, x)
  }

  /** A carried over-limit that the minimum-deductible branch eats into. */
  predicate OverEroded(x: LossRec) { Carried(x) && x.over_limit > 0.0 }

  /** The deductible step loses nothing: no over-limit is eroded and no deductible goes unrecorded. */
  predicate DeductibleKeeps(p: Profile, x: LossRec, additive: bool) {
    CapApplies(p, x)
    || (if RaiseApplies(p, x) then !OverEroded(x)
        else additive || Min(FlatOrPercent(p, x), x.loss) == 0.0)
  }

  function AfterDeductible(p: Profile, x: LossRec, additive: bool): (LossRec, real) {
    MinMax(x, FlatOrPercent(p, x), MinimumOf(p, x), MaximumOf(p, x), additive)
  }

  /** A limit loses nothing: it does not bite, or there is no carried over-limit for it to replace. */
  predicate LimitKeeps(over_limit: real, loss: real, cap: real) { loss <= cap || over_limit == 0.0 }

  /** The guard under which a direct rule keeps the ground-up loss. */
  predicate Keeps(p: Profile, x: LossRec) {
    var d1, lim := p.deductible_1, p.limit_1;
    match p.calcrule_id
    case 1 => LimitKeeps(x.over_limit, Max0(x.loss - d1), lim)
    case 3 => LimitKeeps(x.over_limit, if x.loss < d1 then 0.0 else x.loss, lim)
    case 4 => LimitKeeps(x.over_limit, Max0(x.loss - Times(d1, x.accumulated_tiv)), lim)
    case 5 => LimitKeeps(x.over_limit, Max0(x.loss - Times(x.loss, d1)), Times(lim, x.loss))
    case 9 => LimitKeeps(x.over_limit, Max0(x.loss - Times(d1, lim)), lim)
    case 14 => LimitKeeps(x.over_limit, x.loss, lim)
    case 15 => LimitKeeps(x.over_limit, x.loss, Min(Max0(x.loss - d1), Times(x.loss, lim)))
    case 33 => LimitKeeps(x.over_limit, Max0(x.loss - Times(d1, x.loss)), lim)
    case 8 => Rule8Keeps(p, x)
    case _ => HasMinMax(p.calcrule_id) ==> MinMaxKeeps(p, x)
  }

  /** Rules 10, 11 and 13 do not record a plain deductible. */
  predicate Additive(id: int) { !(id == 10 || id == 11 || id == 13) }

  function ThenOf(p: Profile, x: LossRec): After {
    var id := p.calcrule_id;
    if id == 7 then FreshLimit(p.limit_1)
    else if id == 26 then LimitUnlessCapped(p.limit_1)
    else if id == 35 || id == 36 then PercentUnlessCapped(Times(x.loss, p.limit_1))
    else Nothing
  }

  predicate MinMaxKeeps(p: Profile, x: LossRec) {
    var keeps := DeductibleKeeps(p, x, Additive(p.calcrule_id));
    match ThenOf(p, x)
    case Nothing => keeps
    case FreshLimit(_) =>
      // the over-limit is dropped, so there must be none, neither carried nor new
      x.over_limit == 0.0 && (CapApplies(p, x) && Carried(x) ==>
                                x.effective_deductible - MaximumOf(p, x) <= x.under_limit)
    case LimitUnlessCapped(lim) =>
      CapApplies(p, x) || (keeps && LimitKeeps(x.over_limit, AfterDeductible(p, x, true).1, lim))
    case PercentUnlessCapped(cap) =>
      CapApplies(p, x) || (keeps && LimitKeeps(x.over_limit, AfterDeductible(p, x, true).1, cap))
  }

  /**
    The one branch that creates loss: rule 8 leaves the over-limit that its minimum deductible
    eats into on the books, unless its own limit then bites and replaces it.
  */
  predicate Creates(p: Profile, x: LossRec) {
    var increase := p.deductible_2 - x.effective_deductible;
    p.calcrule_id == 8 && p.deductible_1 < increase && OverEroded(x)
    && (if increase > x.over_limit then x.loss + x.over_limit - increase else x.loss) <= p.limit_1
  }

  predicate Rule8Keeps(p: Profile, x: LossRec) {
    var d1, lim := p.deductible_1, p.limit_1;
    var increase := p.deductible_2 - x.effective_deductible;
    if d1 >= increase then
      Min(d1, x.loss) == 0.0 && LimitKeeps(x.over_limit, Max0(x.loss - d1), lim)
    else if OverEroded(x) then
      if increase > x.over_limit then x.loss + x.over_limit - increase > lim
      else x.loss > lim && increase == x.over_limit
    else if Carried(x) then x.loss == 0.0
    else LimitKeeps(x.over_limit, Max0(x.loss - increase), lim)
  }

  // ---------- the blocks ----------

  lemma LimitChange(x: LossRec, loss: real, cap: real, lim: real)
    requires x.over_limit >= 0.0
    ensures var (y, l) := Limited(x, loss, cap, lim);
            var before := loss + x.effective_deductible + x.over_limit;
            var after := l + y.effective_deductible + y.over_limit;
            after <= before && (after == before <==> LimitKeeps(x.over_limit, loss, cap))
  {}

  lemma DeductLimitChange(x: LossRec, ded: real, cap: real, lim: real)
    requires x.over_limit >= 0.0
    ensures GroundUp(DeductThenLimit(x, ded, cap, lim)) <= GroundUp(x)
    ensures GroundUp(DeductThenLimit(x, ded, cap, lim)) == GroundUp(x)
            <==> LimitKeeps(x.over_limit, Max0(x.loss - ded), cap)
  {}

  /** A maximum deductible moves loss about and keeps the sum. */
  lemma CapChange(x: LossRec, maximum: real)
    ensures var (y, loss) := Capped(x, maximum);
            loss + y.effective_deductible + y.over_limit == GroundUp(x)
  {}

  /** A minimum deductible loses what it takes from the over-limit. */
  lemma RaiseChange(x: LossRec, minimum: real)
    requires minimum > x.effective_deductible && x.over_limit >= 0.0
    ensures var (y, loss) := Raised(x, minimum);
            loss + y.effective_deductible + y.over_limit
            == GroundUp(x) - if OverEroded(x) then Min(x.over_limit, minimum - x.effective_deductible) else 0.0
  {}

  lemma MinMaxChange(x: LossRec, ded: real, minimum: real, maximum: real, additive: bool)
    requires x.over_limit >= 0.0 && ded >= 0.0 && x.loss >= 0.0
    ensures var (y, loss) := MinMax(x, ded, minimum, maximum, additive);
            var after := loss + y.effective_deductible + y.over_limit;
            after <= GroundUp(x)
            && (after == GroundUp(x) <==>
                ded + x.effective_deductible > maximum
                || (if ded + x.effective_deductible < minimum then !OverEroded(x)
                    else additive || Min(ded, x.loss) == 0.0))
  {
    if ded + x.effective_deductible > maximum {
      CapChange(x, maximum);
    } else if ded + x.effective_deductible < minimum {
      RaiseChange(x, minimum);
    }
  }

  // ---------- the direct rules ----------

  lemma DeductibleLaw(p: Profile, x: LossRec)
    requires Sensible(p) && Sound(x) && Direct(p.calcrule_id)
    requires !HasMinMax(p.calcrule_id) && !KeepsLedger(p.calcrule_id)
    ensures GroundUp(DeductibleRule(p, x)) <= GroundUp(x)
    ensures GroundUp(DeductibleRule(p, x)) == GroundUp(x) <==> Keeps(p, x)
  {
    var d1, lim := p.deductible_1, p.limit_1;
    match p.calcrule_id {
      case 1 => DeductLimitChange(x, d1, lim, lim);
      case 4 => DeductLimitChange(x, Times(d1, x.accumulated_tiv), lim, lim);
      case 5 => DeductLimitChange(x, Times(x.loss, d1), Times(lim, x.loss), lim);
      case 9 => DeductLimitChange(x, Times(d1, lim), lim, lim);
      case 33 => DeductLimitChange(x, Times(d1, x.loss), lim, lim);
      case 15 => WithinLimitChange(x, d1, Times(x.loss, lim), lim);
      case _ =>
    }
  }

  lemma WithinLimitChange(x: LossRec, ded: real, cap: real, lim: real)
    requires x.over_limit >= 0.0 && ded >= 0.0 && x.loss >= 0.0
    ensures GroundUp(DeductWithinLimit(x, ded, cap, lim)) <= GroundUp(x)
    ensures GroundUp(DeductWithinLimit(x, ded, cap, lim)) == GroundUp(x)
            <==> LimitKeeps(x.over_limit, x.loss, Min(Max0(x.loss - ded), cap))
  {}

  lemma LayerLaw(p: Profile, x: LossRec, layer: int)
    requires Sound(x) && (p.calcrule_id == 3 || p.calcrule_id == 14)
    ensures GroundUp(LayerRule(p, x, layer)) <= GroundUp(x)
    ensures GroundUp(LayerRule(p, x, layer)) == GroundUp(x) <==> Keeps(p, x)
  {
    var loss := if p.calcrule_id == 3 && x.loss < p.deductible_1 then 0.0 else x.loss;
    LimitChange(Deducted(x, loss), loss, p.limit_1, p.limit_1);
  }

  lemma MinMaxThenChange(x: LossRec, ded: real, minimum: real, maximum: real, additive: bool, then_: After)
    requires x.over_limit >= 0.0 && ded >= 0.0 && x.loss >= 0.0
    ensures var (y, loss) := MinMax(x, ded, minimum, maximum, additive);
            var z := MinMaxThen(x, ded, minimum, maximum, additive, then_);
            var capped := ded + x.effective_deductible > maximum;
            var keeps := loss + y.effective_deductible + y.over_limit == GroundUp(x);
            GroundUp(z) <= GroundUp(x)
            && (GroundUp(z) == GroundUp(x) <==>
                match then_
                case Nothing => keeps
                case FreshLimit(lim) => keeps && y.over_limit == 0.0
                case LimitUnlessCapped(lim) => keeps && (capped || LimitKeeps(y.over_limit, loss, lim))
                case PercentUnlessCapped(cap) => keeps && (capped || LimitKeeps(y.over_limit, loss, cap)))
  {
    MinMaxChange(x, ded, minimum, maximum, additive);
    var (y, loss) := MinMax(x, ded, minimum, maximum, additive);
    OverLimitStays(x, ded, minimum, maximum, additive);
    match then_ {
      case Nothing =>
      case FreshLimit(lim) => LimitChange(y.(over_limit := 0.0), loss, lim, lim);
      case LimitUnlessCapped(lim) => LimitChange(y, loss, lim, lim);
      case PercentUnlessCapped(cap) =>
    }
  }

  lemma OverLimitStays(x: LossRec, ded: real, minimum: real, maximum: real, additive: bool)
    requires x.over_limit >= 0.0
    ensures var (y, loss) := MinMax(x, ded, minimum, maximum, additive);
            y.over_limit >= 0.0
            && (ded + x.effective_deductible <= maximum && !OverEroded(x) ==> y.over_limit == x.over_limit)
            && (x.over_limit == 0.0 && ded + x.effective_deductible > maximum ==>
                (y.over_limit == 0.0 <==> !Carried(x) || x.effective_deductible - maximum <= x.under_limit))
            && (x.over_limit > 0.0 && ded + x.effective_deductible > maximum ==> y.over_limit > 0.0)
  {}

  lemma MinMaxRuleIs(p: Profile, x: LossRec)
    requires HasMinMax(p.calcrule_id) && p.calcrule_id != 8
    ensures MinMaxRule(p, x)
            == MinMaxThen(x, FlatOrPercent(p, x), MinimumOf(p, x), MaximumOf(p, x), Additive(p.calcrule_id),
                          ThenOf(p, x))
  {}

  lemma MinMaxLaw(p: Profile, x: LossRec)
    requires Sensible(p) && Sound(x) && HasMinMax(p.calcrule_id) && p.calcrule_id != 8
    ensures GroundUp(MinMaxRule(p, x)) <= GroundUp(x)
    ensures GroundUp(MinMaxRule(p, x)) == GroundUp(x) <==> MinMaxKeeps(p, x)
  {
    TimesNonNegative(x.loss, p.deductible_1);
    TimesNonNegative(x.accumulated_tiv, p.deductible_1);
    MinMaxRuleIs(p, x);
    MinMaxGuard(p, x, FlatOrPercent(p, x), MinimumOf(p, x), MaximumOf(p, x), Additive(p.calcrule_id), ThenOf(p, x));
  }

  lemma MinMaxGuard(p: Profile, x: LossRec, ded: real, minimum: real, maximum: real, additive: bool, then_: After)
    requires Sound(x) && ded >= 0.0 && then_ == ThenOf(p, x) && additive == Additive(p.calcrule_id)
    requires ded == FlatOrPercent(p, x) && minimum == MinimumOf(p, x) && maximum == MaximumOf(p, x)
    ensures GroundUp(MinMaxThen(x, ded, minimum, maximum, additive, then_)) <= GroundUp(x)
    ensures GroundUp(MinMaxThen(x, ded, minimum, maximum, additive, then_)) == GroundUp(x) <==> MinMaxKeeps(p, x)
  {
    MinMaxThenChange(x, ded, minimum, maximum, additive, then_);
    MinMaxChange(x, ded, minimum, maximum, additive);
    OverLimitStays(x, ded, minimum, maximum, additive);
  }

  lemma Rule8Law(x: LossRec, d1: real, d2: real, lim: real, p: Profile)
    requires Sound(x) && d1 >= 0.0 && p.deductible_1 == d1 && p.deductible_2 == d2 && p.limit_1 == lim
    requires p.calcrule_id == 8
    ensures GroundUp(MinimumThenLimit(x, d1, d2, lim)) == GroundUp(x) <==> Rule8Keeps(p, x)
    ensures GroundUp(MinimumThenLimit(x, d1, d2, lim)) > GroundUp(x) <==> Creates(p, x)
  {}

  /**
    The exact law of the direct rules. The ground-up loss accounted for grows on exactly the
    records that take the one branch of rule 8, and is kept on exactly those that pass the guard.
  */
  lemma GroundUpLaw(p: Profile, x: LossRec, layer: int)
    requires Direct(p.calcrule_id) && Sensible(p) && Sound(x)
    ensures GroundUp(Rule(p, x, layer)) > GroundUp(x) <==> Creates(p, x)
    ensures GroundUp(Rule(p, x, layer)) == GroundUp(x) <==> Keeps(p, x)
  {
    if KeepsLedger(p.calcrule_id) {
      LayerLaw(p, x, layer);
    } else if p.calcrule_id == 8 {
      Rule8Law(x, p.deductible_1, p.deductible_2, p.limit_1, p);
    } else if HasMinMax(p.calcrule_id) {
      MinMaxLaw(p, x);
    } else {
      DeductibleLaw(p, x);
    }
  }

  // ---------- when a loss stays non-negative ----------

  /**
    A maximum deductible that applies although the effective deductible is below it charges
    the difference, without looking whether the loss can bear it. Rule 8 does the like with
    a minimum deductible that outruns the carried over-limit.
  */
  predicate StaysNonNegative(p: Profile, x: LossRec) {
    var increase := p.deductible_2 - x.effective_deductible;
    if p.calcrule_id == 8 then
      !(p.deductible_1 < increase && OverEroded(x) && increase > x.over_limit && x.loss + x.over_limit < increase)
    else if HasMinMax(p.calcrule_id) then
      !(CapApplies(p, x) && x.loss + x.effective_deductible < MaximumOf(p, x))
    else true
  }

  /**
    The under-limit stays covered by the loss. It can fail only on a record whose under-limit
    rule 5 has left negative, when the loss drops and the drop is not added to the under-limit.
  */
  predicate StaysCovered(p: Profile, x: LossRec) {
    HasMinMax(p.calcrule_id) && p.calcrule_id != 8 ==>
      Covered(x, FlatOrPercent(p, x), MinimumOf(p, x), MaximumOf(p, x), ThenOf(p, x))
  }

  /** The drop in loss that is not added to the under-limit. */
  function UnrecordedDrop(x: LossRec, ded: real, minimum: real, maximum: real): real {
    if ded + x.effective_deductible > maximum then
      if Carried(x) then 0.0 else maximum - x.effective_deductible
    else if ded + x.effective_deductible < minimum then
      if OverEroded(x) then Min(x.loss, Max0(minimum - x.effective_deductible - x.over_limit))
      else if Carried(x) then 0.0
      else Min(x.loss, minimum - x.effective_deductible)
    else Min(ded, x.loss)
  }

  predicate Covered(x: LossRec, ded: real, minimum: real, maximum: real, then_: After) {
    then_.FreshLimit? || (!then_.Nothing? && ded + x.effective_deductible <= maximum)
    || UnrecordedDrop(x, ded, minimum, maximum) <= x.loss + x.under_limit
  }

  lemma MinMaxSign(x: LossRec, ded: real, minimum: real, maximum: real, additive: bool, then_: After)
    requires Sound(x) && maximum >= 0.0
    requires then_.FreshLimit? || then_.LimitUnlessCapped? ==> then_.lim >= 0.0
    requires then_.PercentUnlessCapped? ==> then_.cap >= 0.0
    ensures var z := MinMaxThen(x, ded, minimum, maximum, additive, then_);
            var drops := ded + x.effective_deductible > maximum && x.loss + x.effective_deductible < maximum;
            z.loss >= 0.0 <==> !drops
  {}

  lemma MinMaxBooks(x: LossRec, ded: real, minimum: real, maximum: real, additive: bool)
    requires Sound(x) && maximum >= 0.0 && ded >= 0.0
    ensures var (y, loss) := MinMax(x, ded, minimum, maximum, additive);
            y.effective_deductible >= 0.0 && y.over_limit >= 0.0 && y.accumulated_tiv >= 0.0 && y.loss == x.loss
            && loss + y.under_limit == x.loss + x.under_limit - UnrecordedDrop(x, ded, minimum, maximum)
  {}

  lemma MinMaxSound(x: LossRec, ded: real, minimum: real, maximum: real, additive: bool, then_: After)
    requires Sound(x) && maximum >= 0.0 && ded >= 0.0
    requires then_.FreshLimit? || then_.LimitUnlessCapped? ==> then_.lim >= 0.0
    requires then_.PercentUnlessCapped? ==> then_.cap >= 0.0
    requires MinMaxThen(x, ded, minimum, maximum, additive, then_).loss >= 0.0
    ensures Sound(MinMaxThen(x, ded, minimum, maximum, additive, then_)) <==> Covered(x, ded, minimum, maximum, then_)
  {
    MinMaxBooks(x, ded, minimum, maximum, additive);
  }

  lemma MinMaxStays(p: Profile, x: LossRec)
    requires Sensible(p) && Sound(x) && HasMinMax(p.calcrule_id) && p.calcrule_id != 8
    ensures MinMaxRule(p, x).loss >= 0.0 <==> StaysNonNegative(p, x)
    ensures StaysNonNegative(p, x) ==> (Sound(MinMaxRule(p, x)) <==> StaysCovered(p, x))
    ensures x.under_limit >= 0.0 && StaysNonNegative(p, x) ==> StaysCovered(p, x)
  {
    TimesNonNegative(x.loss, p.deductible_1);
    TimesNonNegative(x.accumulated_tiv, p.deductible_1);
    TimesNonNegative(x.loss, p.limit_1);
    MinMaxRuleIs(p, x);
    MinMaxSign(x, FlatOrPercent(p, x), MinimumOf(p, x), MaximumOf(p, x), Additive(p.calcrule_id), ThenOf(p, x));
    if StaysNonNegative(p, x) {
      MinMaxSound(x, FlatOrPercent(p, x), MinimumOf(p, x), MaximumOf(p, x), Additive(p.calcrule_id), ThenOf(p, x));
    }
  }

  lemma DeductibleStays(p: Profile, x: LossRec)
    requires Sensible(p) && Sound(x)
    ensures Sound(DeductibleRule(p, x))
  {
    TimesNonNegative(x.loss, p.limit_1);
    TimesNonNegative(p.limit_1, x.loss);
    TimesNonNegative(p.deductible_1, p.limit_1);
    TimesNonNegative(p.deductible_1, x.loss);
    TimesNonNegative(x.loss, p.deductible_1);
    TimesNonNegative(p.deductible_1, x.accumulated_tiv);
    match p.calcrule_id {
      case 1 => DeductLimitStays(x, p.deductible_1, p.limit_1, p.limit_1);
      case 4 => DeductLimitStays(x, Times(p.deductible_1, x.accumulated_tiv), p.limit_1, p.limit_1);
      case 5 => DeductLimitStays(x, Times(x.loss, p.deductible_1), Times(p.limit_1, x.loss), p.limit_1);
      case 9 => DeductLimitStays(x, Times(p.deductible_1, p.limit_1), p.limit_1, p.limit_1);
      case 33 => DeductLimitStays(x, Times(p.deductible_1, x.loss), p.limit_1, p.limit_1);
      case _ =>
    }
  }

  lemma DeductLimitStays(x: LossRec, ded: real, cap: real, lim: real)
    requires Sound(x) && ded >= 0.0 && cap >= 0.0 && lim >= 0.0
    ensures Sound(DeductThenLimit(x, ded, cap, lim))
  {}

  lemma CededNonNegative(p: Profile, loss: real)
    requires Sensible(p) && loss >= 0.0
    ensures Ceded(p, loss) >= 0.0
  {
    match p.calcrule_id {
      case 24 =>
        var paid := Min(Max0(Times(loss, p.share_1) - p.attachment_1), p.limit_1);
        TimesNonNegative(paid, p.share_2);
        TimesNonNegative(Times(paid, p.share_2), p.share_3);
      case 25 =>
        TimesNonNegative(loss, p.share_1);
        TimesNonNegative(Times(loss, p.share_1), p.share_2);
        TimesNonNegative(Times(Times(loss, p.share_1), p.share_2), p.share_3);
      case 2 =>
        TimesNonNegative(Excess(Max0(loss - p.deductible_1), p.attachment_1, p.limit_1), p.share_1);
      case 34 =>
        TimesNonNegative(Max0(Max0(loss - p.deductible_1) - p.attachment_1), p.share_1);
      case _ =>
    }
  }

  lemma LayerStays(p: Profile, x: LossRec, layer: int)
    requires Sensible(p) && Sound(x) && KeepsLedger(p.calcrule_id)
    ensures LayerRule(p, x, layer).loss >= 0.0
    ensures p.calcrule_id == 3 || p.calcrule_id == 14 ==> Sound(LayerRule(p, x, layer))
  {
    CededNonNegative(p, x.loss);
  }

  /** The exact sign law, for every rule. */
  lemma LossSignLaw(p: Profile, x: LossRec, layer: int)
    requires Sensible(p) && Sound(x)
    ensures Rule(p, x, layer).loss >= 0.0 <==> StaysNonNegative(p, x)
  {
    var id := p.calcrule_id;
    if KeepsLedger(id) {
      LayerStays(p, x, layer);
    } else if id == 8 {
      Rule8Sign(x, p.deductible_1, p.deductible_2, p.limit_1);
    } else if HasMinMax(id) {
      MinMaxStays(p, x);
    } else if id == 17 {
      TimesNonNegative(Excess(Max0(x.loss - Times(p.deductible_1, x.loss)), p.attachment_1, p.limit_1), p.share_1);
    } else if id == 18 {
      TimesNonNegative(Excess(Max0(x.loss - Times(p.deductible_1, x.accumulated_tiv)), p.attachment_1, p.limit_1),
                       p.share_1);
    } else {
      DeductibleStays(p, x);
    }
  }

  lemma Rule8Sign(x: LossRec, d1: real, d2: real, lim: real)
    requires Sound(x) && lim >= 0.0
    ensures var increase := d2 - x.effective_deductible;
            MinimumThenLimit(x, d1, d2, lim).loss < 0.0
            <==> d1 < increase && OverEroded(x) && increase > x.over_limit && x.loss + x.over_limit < increase
  {}

  /** Rule 8 always applies its limit, which sets the under-limit afresh. */
  lemma Rule8Sound(x: LossRec, d1: real, d2: real, lim: real)
    requires Sound(x) && d1 >= 0.0 && d2 >= 0.0 && lim >= 0.0 && MinimumThenLimit(x, d1, d2, lim).loss >= 0.0
    ensures Sound(MinimumThenLimit(x, d1, d2, lim))
  {}

  /**
    The direct rules hand on a sound record exactly when the loss stays non-negative and the
    under-limit stays covered, which it always does if it was not negative.
  */
  lemma SoundLaw(p: Profile, x: LossRec, layer: int)
    requires Direct(p.calcrule_id) && Sensible(p) && Sound(x)
    ensures Sound(Rule(p, x, layer)) <==> StaysNonNegative(p, x) && StaysCovered(p, x)
    ensures x.under_limit >= 0.0 ==> (Sound(Rule(p, x, layer)) <==> StaysNonNegative(p, x))
  {
    if KeepsLedger(p.calcrule_id) {
      LayerStays(p, x, layer);
    } else if p.calcrule_id == 8 {
      Rule8Sign(x, p.deductible_1, p.deductible_2, p.limit_1);
      if StaysNonNegative(p, x) { Rule8Sound(x, p.deductible_1, p.deductible_2, p.limit_1); }
    } else if HasMinMax(p.calcrule_id) {
      MinMaxStays(p, x);
    } else {
      DeductibleStays(p, x);
    }
  }

  // ---------- where the code and its documentation part ----------

  /**
    Losses at their prior limits are not to be adjusted upwards. A maximum deductible raises the
    loss by no more than the room under the prior limits exactly if the record carries any room
    or over-limit, or the release fits the room in any case. A record exactly at its limits
    carries neither, and looks to the code like one that never met a limit.
  */
  lemma MaximumStaysInRoom(p: Profile, x: LossRec, layer: int)
    requires HasMinMax(p.calcrule_id) && p.calcrule_id != 7 && p.calcrule_id != 8 && CapApplies(p, x)
    ensures Rule(p, x, layer).loss - x.loss <= x.under_limit
            <==> Carried(x) || x.effective_deductible - MaximumOf(p, x) <= x.under_limit
  {
    MinMaxRuleIs(p, x);
  }

  /** A limit of 80 is reached exactly; a maximum deductible of 5 then raises the loss to 95. */
  lemma MaximumBreachesLimit()
    ensures var site := Profile(1, 20.0, 0.0, 0.0, 0.0, 80.0, 0.0, 0.0, 0.0);
            var policy := Profile(10, 0.0, 0.0, 5.0, 0.0, 0.0, 0.0, 0.0, 0.0);
            var x := Rule(site, FRESH.(loss := 100.0), 1);
            Sensible(site) && Sensible(policy) && x.loss == 80.0 && x.over_limit == 0.0 == x.under_limit
            && CapApplies(policy, x) && Rule(policy, x, 1).loss == 95.0
  {}

  /**
    The documentation has a minimum deductible raise the effective deductible to the minimum,
    or by the whole loss if that is less. The code does so exactly when no carried over-limit
    is eroded on the way, or the loss is used up in any case.
  */
  lemma MinimumIsReached(x: LossRec, ded: real, minimum: real, maximum: real, additive: bool)
    requires Sound(x) && ded >= 0.0
    requires ded + x.effective_deductible <= maximum && ded + x.effective_deductible < minimum
    ensures MinMax(x, ded, minimum, maximum, additive).0.effective_deductible
            == Min(minimum, x.effective_deductible + x.loss)
            <==> !OverEroded(x) || x.loss <= Max0(minimum - x.effective_deductible - x.over_limit)
  {}

  /** Raised to a minimum of 50 with 20 carried over the limits, the effective deductible stops at 30. */
  lemma MinimumMissed()
    ensures var p := Profile(11, 0.0, 50.0, 0.0, 0.0, 0.0, 0.0, 0.0, 0.0);
            var x := FRESH.(loss := 100.0, over_limit := 20.0, effective_deductible := 10.0);
            Sensible(p) && Sound(x) && RaiseApplies(p, x) && Rule(p, x, 1).effective_deductible == 30.0
  {}

  /**
    A plain deductible is to join the effective one. Rules 10, 11 and 13 deduct it and do not
    record it, so the books are right exactly if nothing is deducted.
  */
  lemma PlainDeductible(p: Profile, x: LossRec, layer: int)
    requires HasMinMax(p.calcrule_id) && !Additive(p.calcrule_id) && Sensible(p) && Sound(x)
    requires !CapApplies(p, x) && !RaiseApplies(p, x)
    ensures Rule(p, x, layer).loss == x.loss - Min(p.deductible_1, x.loss)
    ensures Rule(p, x, layer).effective_deductible == x.effective_deductible + Min(p.deductible_1, x.loss)
            <==> p.deductible_1 == 0.0 || x.loss == 0.0
  {
    MinMaxRuleIs(p, x);
  }

  /** 10 of 50 are deducted and not recorded. */
  lemma PlainDeductibleMissed()
    ensures forall id :: id == 10 || id == 11 || id == 13 ==>
              var p := Profile(id, 10.0, 0.0, 100.0, 0.0, 0.0, 0.0, 0.0, 0.0);
              var y := Rule(p, FRESH.(loss := 50.0), 1);
              Sensible(p) && y.loss == 40.0 && y.effective_deductible == 0.0
  {}

  /**
    The under-limit is what the loss falls short of its limit. The limit of rules 5 and 15 is a
    part of the loss, but they measure from the fraction itself. The two agree exactly if the
    limit is the fraction, or the room carried from below is within both.
  */
  lemma PercentRoom(p: Profile, x: LossRec, layer: int)
    requires p.calcrule_id == 5 || p.calcrule_id == 15
    ensures var cap := Times(x.loss, p.limit_1);
            var y := Rule(p, x, layer);
            y.under_limit == UnderLimit(x, y.loss, cap)
            <==> cap == p.limit_1 || (x.under_limit > 0.0 && x.under_limit + x.loss <= Min(cap, p.limit_1))
  {
    var cap := Times(x.loss, p.limit_1);
    assert Times(p.limit_1, x.loss) == cap;
    RoomFrom(x, Rule(p, x, layer).loss, cap, p.limit_1);
  }

  lemma RoomFrom(x: LossRec, loss: real, cap: real, lim: real)
    ensures UnderLimit(x, loss, lim) == UnderLimit(x, loss, cap)
            <==> cap == lim || (x.under_limit > 0.0 && x.under_limit + x.loss <= Min(cap, lim))
  {}

  /** A loss of 100 limited to half of itself is at its limit, and is booked as 49.5 above it. */
  lemma PercentRoomMissed()
    ensures var p := Profile(5, 0.0, 0.0, 0.0, 0.0, 0.5, 0.0, 0.0, 0.0);
            var y := Rule(p, FRESH.(loss := 100.0), 1);
            Sensible(p) && y.loss == 50.0 && y.under_limit == -49.5
  {
    HalfLimit(FRESH.(loss := 100.0), Times(100.0, 0.0), Times(0.5, 100.0));
  }

  lemma HalfLimit(x: LossRec, ded: real, cap: real)
    requires x == FRESH.(loss := 100.0) && ded == 0.0 && cap == 50.0
    ensures var y := DeductThenLimit(x, ded, cap, 0.5);
            y.loss == 50.0 && y.under_limit == -49.5
  {}

  // ---------- the ledger between layers ----------

  /**
    A ledger rule accounts for every unit it is given: on the first layer the incoming loss
    and retained loss, on a later layer what the layer before retained.
  */
  lemma LedgerLaw(p: Profile, x: LossRec, layer: int)
    requires KeepsLedger(p.calcrule_id)
    ensures var y := Rule(p, x, layer);
            y.loss + y.retained_loss
            == if layer > 1 then x.previous_layer_retained_loss else x.loss + x.retained_loss
  {}

  // ---------- counterexamples ----------

  /** Rule 8 can account for more than the ground-up loss: the over-limit it eats into stays on the books. */
  lemma Rule8Creates()
    ensures var p := Profile(8, 0.0, 50.0, 0.0, 0.0, 1000.0, 0.0, 0.0, 0.0);
            var x := FRESH.(loss := 100.0, over_limit := 20.0, effective_deductible := 10.0);
            Sensible(p) && Sound(x) && GroundUp(x) == 130.0 && GroundUp(Rule(p, x, 1)) == 150.0
  {}

  /** A flat deductible of 100 against a maximum of 50 drives a loss of 10 to -40. */
  lemma MaximumGoesNegative()
    ensures var p := Profile(10, 100.0, 0.0, 50.0, 0.0, 0.0, 0.0, 0.0, 0.0);
            var x := FRESH.(loss := 10.0);
            Sensible(p) && Sound(x) && Rule(p, x, 1).loss == -40.0
  {}
}
