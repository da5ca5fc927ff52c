/**
  The calculation rules of fmcalcrules.cpp.

  The methods run the rules branch by branch, as the program does; the code that the
  program repeats from rule to rule is a method of its own. The functions say what they
  compute in closed form: every minimum and maximum deductible is one formula in terms of
  the carried over-limit and under-limit. The theorems about the rules are proved of the
  functions.
*/
module CalcRules {
  import opened FinancialStructs
  import opened RealSums

  function Max0(r: real): real { if r < 0.0 then 0.0 else r }
  function Min(a: real, b: real): real { if a < b then a else b }

  // ---------- deductible ----------

  /** A deductible: whatever the loss drops by joins the effective deductible. */
  function Deducted(x: LossRec, loss: real): LossRec {
    x.(effective_deductible := x.effective_deductible + (x.loss - loss))
  }

  method Deduct(x0: LossRec, ded: real) returns (x: LossRec, loss: real)
    ensures loss == Max0(x0.loss - ded) && x == Deducted(x0, loss)
  {
    x := x0;
    loss := x.loss - ded;
    if loss < 0.0 { loss := 0.0; }
    x := x.(effective_deductible := x.effective_deductible + (x.loss - loss));
  }

  // ---------- limit ----------

  /** The room under a limit, never more than the carried room plus the drop in loss. */
  function UnderLimit(x: LossRec, loss: real, lim: real): real {
    if x.under_limit > 0.0 then Min(lim - loss, x.under_limit + x.loss - loss) else lim - loss
  }

  /**
    A limit: the loss stops at cap and the excess replaces the carried over-limit; lim is
    what the under-limit is measured from. The new loss is not yet in the record.
  */
  function Limited(x: LossRec, loss: real, cap: real, lim: real): (LossRec, real) {
    var l := Min(loss, cap);
    (x.(over_limit := if loss > cap then loss - cap else x.over_limit,
        under_limit := UnderLimit(x, l, lim)), l)
  }

  method ApplyLimit(x0: LossRec, loss0: real, cap: real, lim: real) returns (x: LossRec, loss: real)
    ensures (x, loss) == Limited(x0, loss0, cap, lim)
  {
    x, loss := x0, loss0;
    if loss > cap {
      x := x.(over_limit := loss - cap);
      loss := cap;
    }
    var under_limit := lim - loss;
    if x.under_limit > 0.0 {
      if under_limit > x.under_limit + x.loss - loss { under_limit := x.under_limit + x.loss - loss; }
    }
    x := x.(under_limit := under_limit);
  }

  /** A deductible and then a limit. */
  function DeductThenLimit(x: LossRec, ded: real, cap: real, lim: real): LossRec {
    var gross := Max0(x.loss - ded);
    var (y, loss) := Limited(Deducted(x, gross), gross, cap, lim);
    y.(loss := loss)
  }

  method ApplyDeductThenLimit(x0: LossRec, ded: real, cap: real, lim: real) returns (x: LossRec)
    ensures x == DeductThenLimit(x0, ded, cap, lim)
  {
    var loss;
    x, loss := Deduct(x0, ded);
    x, loss := ApplyLimit(x, loss, cap, lim);
    x := x.(loss := loss);
  }

  /** A deductible on its own: the drop in loss is also room under the prior limits. */
  function DeductOnly(x: LossRec, ded: real): LossRec {
    var loss := Max0(x.loss - ded);
    Deducted(x, loss).(loss := loss, under_limit := x.under_limit + x.loss - loss)
  }

  method ApplyDeductOnly(x0: LossRec, ded: real) returns (x: LossRec)
    ensures x == DeductOnly(x0, ded)
  {
    var loss;
    x, loss := Deduct(x0, ded);
    x := x.(under_limit := x.under_limit + x.loss - loss);
    x := x.(loss := loss);
  }

  // ---------- the layer ledger ----------

  /** What this layer does not pay is retained. */
  function Settled(x: LossRec, loss: real, layer: int): LossRec {
    x.(loss := loss,
       retained_loss := if layer > 1 then x.previous_layer_retained_loss - loss
                        else x.retained_loss + (x.loss - loss))
  }

  method SettleLayer(x0: LossRec, loss: real, layer: int) returns (x: LossRec)
    ensures x == Settled(x0, loss, layer)
  {
    var net_loss := 0.0;
    if layer > 1 {
      net_loss := x0.previous_layer_retained_loss - loss;
    } else {
      net_loss := x0.retained_loss + (x0.loss - loss);
    }
    x := x0.(retained_loss := net_loss);
    x := x.(loss := loss);
  }

  /** Rules 3 and 14: the loss after any franchise deductible, limited and settled. */
  function LimitThenSettle(x: LossRec, loss: real, lim: real, layer: int): LossRec {
    var (y, l) := Limited(Deducted(x, loss), loss, lim, lim);
    Settled(y, l, layer)
  }

  method ApplyLimitThenSettle(x0: LossRec, loss0: real, lim: real, layer: int) returns (x: LossRec)
    ensures x == LimitThenSettle(x0, loss0, lim, layer)
  {
    x := x0.(effective_deductible := x0.effective_deductible + (x0.loss - loss0));
    var loss;
    x, loss := ApplyLimit(x, loss0, lim, lim);
    x := SettleLayer(x, loss, layer);
  }

  // ---------- attachment and share ----------

  /** The part of a loss above the attachment point and below the limit. */
  function Excess(gross: real, att: real, lim: real): real {
    if gross > att + lim then Max0(lim) else Max0(gross - att)
  }

  // ---------- minimum and maximum deductible ----------

  predicate Carried(x: LossRec) { x.over_limit + x.under_limit > 0.0 }

  /**
    A maximum deductible: the effective deductible becomes the maximum. Of the loss this
    releases, as much as fits under the prior limits goes to the loss, the rest to the
    over-limit. The new loss is not yet in the record.
  */
  function Capped(x: LossRec, maximum: real): (LossRec, real) {
    var delta := x.effective_deductible - maximum;
    var gain := if Carried(x) then Min(delta, x.under_limit) else delta;
    var y := x.(effective_deductible := maximum,
                over_limit := x.over_limit + (delta - gain),
                under_limit := if Carried(x) then x.under_limit - gain else x.under_limit);
    (y, x.loss + gain)
  }

  method CapDeductible(x0: LossRec, ded3: real) returns (x: LossRec, loss: real)
    ensures (x, loss) == Capped(x0, ded3)
  {
    x := x0;
    var loss_delta := x.effective_deductible - ded3;
    if x.over_limit + x.under_limit > 0.0 {
      if loss_delta > x.under_limit {
        loss := x.loss + x.under_limit;
        x := x.(over_limit := x.over_limit + (loss_delta - x.under_limit));
        x := x.(under_limit := 0.0);
        x := x.(effective_deductible := ded3);
      } else {
        loss := x.loss + loss_delta;
        x := x.(under_limit := x.under_limit - loss_delta);
        x := x.(effective_deductible := x.effective_deductible + (x.loss - loss));
      }
    } else {
      loss := x.loss + loss_delta;
      x := x.(effective_deductible := x.effective_deductible + (x.loss - loss));
    }
  }

  /**
    A minimum deductible: the increase is taken from the over-limit first and then from the
    loss; only what the loss gives up joins the effective deductible.
  */
  function Raised(x: LossRec, minimum: real): (LossRec, real) {
    var increase := minimum - x.effective_deductible;
    var over := Carried(x) && x.over_limit > 0.0;
    var loss := if over then Max0(x.loss - Max0(increase - x.over_limit)) else Max0(x.loss - increase);
    var y := x.(effective_deductible := x.effective_deductible + (x.loss - loss),
                over_limit := if over then Max0(x.over_limit - increase) else x.over_limit,
                under_limit := if Carried(x) && !over then x.under_limit + (x.loss - loss) else x.under_limit);
    (y, loss)
  }

  method RaiseDeductible(x0: LossRec, ded2: real) returns (x: LossRec, loss: real)
    ensures (x, loss) == Raised(x0, ded2)
  {
    x := x0;
    var loss_delta := x.effective_deductible - ded2;
    if x.over_limit + x.under_limit > 0.0 {
      if x.over_limit > 0.0 {
        if -loss_delta > x.over_limit {
          loss := x.loss + x.over_limit + x.effective_deductible - ded2;
          x := x.(over_limit := 0.0);
        } else {
          loss := x.loss;
          x := x.(over_limit := x.over_limit + loss_delta);
        }
      } else {
        loss := x.loss + loss_delta;
        if loss < 0.0 { loss := 0.0; }
        x := x.(under_limit := x.under_limit + (x.loss - loss));
      }
    } else {
      loss := x.loss + loss_delta;
    }
    if loss < 0.0 { loss := 0.0; }
    x := x.(effective_deductible := x.effective_deductible + (x.loss - loss));
  }

  /**
    The choice between maximum, minimum and plain deductible. Rules 10, 11 and 13 do not
    let a plain deductible join the effective one: additive is false for them.
  */
  function MinMax(x: LossRec, ded: real, minimum: real, maximum: real, additive: bool): (LossRec, real) {
    if ded + x.effective_deductible > maximum then Capped(x, maximum)
    else if ded + x.effective_deductible < minimum then Raised(x, minimum)
    else
      var loss := Max0(x.loss - ded);
      (if additive then Deducted(x, loss) else x, loss)
  }

  method MinMaxDeductible(x0: LossRec, ded: real, ded2: real, ded3: real, additive: bool)
      returns (x: LossRec, loss: real)
    ensures (x, loss) == MinMax(x0, ded, ded2, ded3, additive)
  {
    if ded + x0.effective_deductible > ded3 {
      x, loss := CapDeductible(x0, ded3);
    } else if ded + x0.effective_deductible < ded2 {
      x, loss := RaiseDeductible(x0, ded2);
    } else if additive {
      x, loss := Deduct(x0, ded);
    } else {
      x, loss := x0, x0.loss - ded;
      if loss < 0.0 { loss := 0.0; }
    }
  }

  /** What follows the deductible in a rule with minimum and maximum. */
  datatype After =
    | Nothing
    | FreshLimit(lim: real)        // rule 7: the carried over-limit is dropped first
    | LimitUnlessCapped(lim: real) // rule 26
    | PercentUnlessCapped(cap: real) // rules 35 and 36, which also clear the under-limit

  function MinMaxThen(x: LossRec, ded: real, minimum: real, maximum: real, additive: bool, then_: After): LossRec {
    var (y, loss) := MinMax(x, ded, minimum, maximum, additive);
    var capped := ded + x.effective_deductible > maximum;
    match then_
    case Nothing => y.(loss := loss)
    case FreshLimit(lim) =>
      var (z, l) := Limited(y.(over_limit := 0.0), loss, lim, lim);
      z.(loss := l)
    case LimitUnlessCapped(lim) =>
      if capped then y.(loss := loss) else
      var (z, l) := Limited(y, loss, lim, lim);
      z.(loss := l)
    case PercentUnlessCapped(cap) =>
      if capped then y.(loss := loss) else
      y.(loss := Min(loss, cap),
         over_limit := if loss > cap then loss - cap else y.over_limit,
         under_limit := 0.0)
  }

  method ApplyMinMaxThen(x0: LossRec, ded: real, ded2: real, ded3: real, additive: bool, then_: After)
      returns (x: LossRec)
    ensures x == MinMaxThen(x0, ded, ded2, ded3, additive, then_)
  {
    var loss;
    x, loss := MinMaxDeductible(x0, ded, ded2, ded3, additive);
    match then_ {
      case Nothing =>
      case FreshLimit(lim) =>
        x := x.(over_limit := 0.0);
        x, loss := ApplyLimit(x, loss, lim, lim);
      case LimitUnlessCapped(lim) =>
        if !(ded + x0.effective_deductible > ded3) {
          x, loss := ApplyLimit(x, loss, lim, lim);
        }
      case PercentUnlessCapped(cap) =>
        if !(ded + x0.effective_deductible > ded3) {
          if loss > cap {
            x := x.(over_limit := loss - cap);
            loss := cap;
          }
          x := x.(under_limit := 0.0);
        }
    }
    x := x.(loss := loss);
  }

  /** Rule 8, which has its own way with a minimum deductible. */
  function MinimumThenLimit(x: LossRec, ded: real, minimum: real, lim: real): LossRec {
    var increase := minimum - x.effective_deductible;
    var over := Carried(x) && x.over_limit > 0.0;
    var loss := if ded >= increase then Max0(x.loss - ded)
                else if over then (if increase > x.over_limit then x.loss + x.over_limit - increase else x.loss)
                else Max0(x.loss - increase);
    var y := if ded >= increase then x
             else if over then x.(effective_deductible := minimum)
             else if Carried(x) then x
             else Deducted(x, loss);
    var (z, l) := Limited(y, loss, lim, lim);
    z.(loss := l)
  }

  method ApplyMinimumThenLimit(x0: LossRec, ded1: real, ded2: real, lim: real) returns (x: LossRec)
    ensures x == MinimumThenLimit(x0, ded1, ded2, lim)
  {
    x := x0;
    var loss := 0.0;
    if x.effective_deductible + ded1 < ded2 {
      var loss_delta := x.effective_deductible - ded2;
      if x.over_limit + x.under_limit > 0.0 {
        if x.over_limit > 0.0 {
          if -loss_delta > x.over_limit {
            loss := x.loss + x.over_limit + x.effective_deductible - ded2;
          } else {
            loss := x.loss;
          }
          x := x.(effective_deductible := ded2);
        } else {
          loss := x.loss + loss_delta;
          if loss < 0.0 { loss := 0.0; }
        }
      } else {
        loss := x.loss + loss_delta;
        if loss < 0.0 { loss := 0.0; }
        x := x.(effective_deductible := x.effective_deductible + (x.loss - loss));
      }
    } else {
      loss := x.loss - ded1;
      if loss < 0.0 { loss := 0.0; }
    }
    x, loss := ApplyLimit(x, loss, lim, lim);
    x := x.(loss := loss);
  }

  /** Rule 15: the over-limit takes the whole drop in loss, deductible included. */
  function DeductWithinLimit(x: LossRec, ded: real, cap: real, lim: real): LossRec {
    var loss := Min(Max0(x.loss - ded), cap);
    x.(loss := loss,
       over_limit := if x.loss > loss then x.loss - loss else x.over_limit,
       under_limit := UnderLimit(x, loss, lim))
  }

  method ApplyDeductWithinLimit(x0: LossRec, ded: real, cap: real, lim: real) returns (x: LossRec)
    ensures x == DeductWithinLimit(x0, ded, cap, lim)
  {
    x := x0;
    var loss := x.loss - ded;
    if loss < 0.0 { loss := 0.0; }
    if loss > cap { loss := cap; }
    if x.loss > loss { x := x.(over_limit := x.loss - loss); }
    var under_limit := lim - loss;
    if x.under_limit > 0.0 {
      if under_limit > x.under_limit + x.loss - loss { under_limit := x.under_limit + x.loss - loss; }
    }
    x := x.(under_limit := under_limit);
    x := x.(loss := loss);
  }

  /** Rule 12, which skips zero losses and retains what it deducts. */
  function DeductAndRetain(x: LossRec, ded: real): LossRec {
    if x.loss > 0.0 then
      var y := DeductOnly(x, ded);
      y.(retained_loss := x.retained_loss + (x.loss - y.loss))
    else x
  }

  method ApplyDeductAndRetain(x0: LossRec, ded: real) returns (x: LossRec)
    ensures x == DeductAndRetain(x0, ded)
  {
    x := x0;
    if x.loss > 0.0 {
      var loss := x.loss - ded;
      if loss < 0.0 { loss := 0.0; }
      x := x.(effective_deductible := x.effective_deductible + (x.loss - loss));
      x := x.(retained_loss := x.retained_loss + (x.loss - loss));
      x := x.(under_limit := x.under_limit + x.loss - loss);
      x := x.(loss := loss);
    }
  }

  // ---------- the switch, family by family ----------

  /** Rules with one deductible, with or without a limit. */
  function DeductibleRule(p: Profile, x: LossRec): LossRec {
    var d1, lim := p.deductible_1, p.limit_1;
    match p.calcrule_id
    case 1 => DeductThenLimit(x, d1, lim, lim)
    case 4 => DeductThenLimit(x, Times(d1, x.accumulated_tiv), lim, lim)
    case 5 => DeductThenLimit(x, Times(x.loss, d1), Times(lim, x.loss), lim)
    case 6 => DeductOnly(x, Times(d1, x.accumulated_tiv))
    case 9 => DeductThenLimit(x, Times(d1, lim), lim, lim)
    case 12 => DeductAndRetain(x, d1)
    case 15 => DeductWithinLimit(x, d1, Times(x.loss, lim), lim)
    case 16 => DeductOnly(x, Times(x.loss, d1))
    case 33 => DeductThenLimit(x, Times(d1, x.loss), lim, lim)
    case _ => x
  }

  method ApplyDeductibleRule(profile: Profile, x0: LossRec) returns (x: LossRec)
    ensures x == DeductibleRule(profile, x0)
  {
    x := x0;
    var ded, lim := profile.deductible_1, profile.limit_1;
    match profile.calcrule_id {
      case 1 => x := ApplyDeductThenLimit(x, ded, lim, lim);
      case 4 => x := ApplyDeductThenLimit(x, Times(ded, x.accumulated_tiv), lim, lim);
      case 5 => x := ApplyDeductThenLimit(x, Times(x.loss, ded), Times(lim, x.loss), lim);
      case 6 => x := ApplyDeductOnly(x, Times(ded, x.accumulated_tiv));
      case 9 => x := ApplyDeductThenLimit(x, Times(ded, lim), lim, lim);
      case 12 => x := ApplyDeductAndRetain(x, ded);
      case 15 => x := ApplyDeductWithinLimit(x, ded, Times(x.loss, lim), lim);
      case 16 => x := ApplyDeductOnly(x, Times(x.loss, ded));
      case 33 => x := ApplyDeductThenLimit(x, Times(ded, x.loss), lim, lim);
      case _ =>
    }
  }

  function Maximum(d3: real): real { if d3 == 0.0 then NO_MAXIMUM else d3 }

  /** Rules with a minimum or maximum deductible. */
  function MinMaxRule(p: Profile, x: LossRec): LossRec {
    var d1, d2, d3, lim := p.deductible_1, p.deductible_2, p.deductible_3, p.limit_1;
    match p.calcrule_id
    case 7 => MinMaxThen(x, d1, d2, d3, true, FreshLimit(lim))
    case 8 => MinimumThenLimit(x, d1, d2, lim)
    case 10 => MinMaxThen(x, d1, d1 + x.effective_deductible, d3, false, Nothing)
    case 11 => MinMaxThen(x, d1, d2, d1 + x.effective_deductible, false, Nothing)
    case 13 => MinMaxThen(x, d1, d2, d3, false, Nothing)
    case 19 => MinMaxThen(x, Times(x.loss, d1), d2, Maximum(d3), true, Nothing)
    case 21 => MinMaxThen(x, Min(x.loss, Times(x.accumulated_tiv, d1)), d2, d3, true, Nothing)
    case 26 => MinMaxThen(x, Times(x.loss, d1), d2, Maximum(d3), true, LimitUnlessCapped(lim))
    case 35 => MinMaxThen(x, Times(x.loss, d1), d2, Maximum(d3), true, PercentUnlessCapped(Times(x.loss, lim)))
    case 36 => MinMaxThen(x, d1, d2, Maximum(d3), true, PercentUnlessCapped(Times(x.loss, lim)))
    case _ => x
  }

  method ApplyMaximumOnly(x0: LossRec, ded1: real, ded3: real) returns (x: LossRec)
    ensures x == MinMaxThen(x0, ded1, ded1 + x0.effective_deductible, ded3, false, Nothing)
  {
    x := x0;
    var loss := 0.0;
    if x.effective_deductible + ded1 > ded3 {
      x, loss := CapDeductible(x, ded3);
    } else {
      loss := x.loss - ded1;
      if loss < 0.0 { loss := 0.0; }
    }
    x := x.(loss := loss);
  }

  method ApplyMinimumOnly(x0: LossRec, ded1: real, ded2: real) returns (x: LossRec)
    ensures x == MinMaxThen(x0, ded1, ded2, ded1 + x0.effective_deductible, false, Nothing)
  {
    x := x0;
    var loss := 0.0;
    if x.effective_deductible + ded1 < ded2 {
      x, loss := RaiseDeductible(x, ded2);
    } else {
      loss := x.loss - ded1;
      if loss < 0.0 { loss := 0.0; }
    }
    x := x.(loss := loss);
  }

  method ApplyMinMaxRule(profile: Profile, x0: LossRec) returns (x: LossRec)
    ensures x == MinMaxRule(profile, x0)
  {
    x := x0;
    var ded1, ded2, ded3 := profile.deductible_1, profile.deductible_2, profile.deductible_3;
    var lim := profile.limit_1;
    var maximum := if ded3 == 0.0 then NO_MAXIMUM else ded3;
    match profile.calcrule_id {
      case 7 => x := ApplyMinMaxThen(x, ded1, ded2, ded3, true, FreshLimit(lim));
      case 8 => x := ApplyMinimumThenLimit(x, ded1, ded2, lim);
      case 10 => x := ApplyMaximumOnly(x, ded1, ded3);
      case 11 => x := ApplyMinimumOnly(x, ded1, ded2);
      case 13 => x := ApplyMinMaxThen(x, ded1, ded2, ded3, false, Nothing);
      case 19 => x := ApplyMinMaxThen(x, Times(x.loss, ded1), ded2, maximum, true, Nothing);
      case 21 =>
        var effective_ded := Min(x.loss, Times(x.accumulated_tiv, ded1));
        x := ApplyMinMaxThen(x, effective_ded, ded2, ded3, true, Nothing);
      case 26 => x := ApplyMinMaxThen(x, Times(x.loss, ded1), ded2, maximum, true, LimitUnlessCapped(lim));
      case 35 => x := ApplyMinMaxThen(x, Times(x.loss, ded1), ded2, maximum, true,
                                      PercentUnlessCapped(Times(x.loss, lim)));
      case 36 => x := ApplyMinMaxThen(x, ded1, ded2, maximum, true, PercentUnlessCapped(Times(x.loss, lim)));
      case _ =>
    }
  }

  /** What a reinsurance layer pays of a loss. */
  function Ceded(p: Profile, loss: real): real {
    var gross, lim, att := Max0(loss - p.deductible_1), p.limit_1, p.attachment_1;
    var (s1, s2, s3) := (p.share_1, p.share_2, p.share_3);
    match p.calcrule_id
    case 2 => Times(Excess(gross, att, lim), s1)
    case 20 => if loss > p.deductible_1 then 0.0 else loss
    case 22 => Max0(Times(Times(Min(Times(loss, s1), lim), s2), s3))
    case 23 => Max0(Times(Times(Min(loss, lim), s2), s3))
    case 24 => Times(Times(Min(Max0(Times(loss, s1) - att), lim), s2), s3)
    case 25 => Times(Times(Times(loss, s1), s2), s3)
    case 34 => Times(Max0(gross - att), s1)
    case _ => loss
  }

  method CedeLoss(profile: Profile, loss0: real) returns (loss: real)
    ensures loss == Ceded(profile, loss0)
  {
    loss := loss0;
    var lim, att := profile.limit_1, profile.attachment_1;
    match profile.calcrule_id {
      case 2 =>
        loss := Max0(loss - profile.deductible_1);
        if loss > att + lim { loss := lim; } else { loss := loss - att; }
        if loss < 0.0 { loss := 0.0; }
        loss := Times(loss, profile.share_1);
      case 20 =>
        if loss > profile.deductible_1 { loss := 0.0; }
      case 22 =>
        loss := Times(loss, profile.share_1);
        if loss > lim { loss := lim; }
        loss := Times(Times(loss, profile.share_2), profile.share_3);
        if loss < 0.0 { loss := 0.0; }
      case 23 =>
        if loss > lim { loss := lim; }
        loss := Times(Times(loss, profile.share_2), profile.share_3);
        if loss < 0.0 { loss := 0.0; }
      case 24 =>
        loss := Times(loss, profile.share_1) - att;
        if loss < 0.0 { loss := 0.0; }
        if loss > lim { loss := lim; }
        loss := Times(Times(loss, profile.share_2), profile.share_3);
      case 25 =>
        loss := Times(Times(Times(loss, profile.share_1), profile.share_2), profile.share_3);
      case 34 =>
        loss := Max0(loss - profile.deductible_1);
        loss := loss - att;
        if loss < 0.0 { loss := 0.0; }
        loss := Times(loss, profile.share_1);
      case _ =>
    }
  }

  /** The rules that keep the layer ledger, apart from rule 12, which keeps it for one layer only. */
  predicate KeepsLedger(id: int) {
    id == 2 || id == 3 || id == 14 || id == 20 || 22 <= id <= 25 || id == 34
  }

  function LayerRule(p: Profile, x: LossRec, layer: int): LossRec {
    var id := p.calcrule_id;
    if id == 3 then LimitThenSettle(x, if x.loss < p.deductible_1 then 0.0 else x.loss, p.limit_1, layer)
    else if id == 14 then LimitThenSettle(x, x.loss, p.limit_1, layer)
    else if id == 2 || id == 34 then Settled(Deducted(x, Max0(x.loss - p.deductible_1)), Ceded(p, x.loss), layer)
    else Settled(x, Ceded(p, x.loss), layer)
  }

  method ApplyLayerRule(profile: Profile, x0: LossRec, layer: int) returns (x: LossRec)
    ensures x == LayerRule(profile, x0, layer)
    // what is paid and what is retained account for what the layer was given
    ensures x.loss + x.retained_loss
            == if layer > 1 then x0.previous_layer_retained_loss else x0.loss + x0.retained_loss
  {
    x := x0;
    var id, loss := profile.calcrule_id, x0.loss;
    if id == 3 {
      if loss < profile.deductible_1 { loss := 0.0; }
      x := ApplyLimitThenSettle(x, loss, profile.limit_1, layer);
    } else if id == 14 {
      x := ApplyLimitThenSettle(x, loss, profile.limit_1, layer);
    } else {
      loss := CedeLoss(profile, x.loss);
      if id == 2 || id == 34 {
        var gross;
        x, gross := Deduct(x, profile.deductible_1);
      }
      x := SettleLayer(x, loss, layer);
    }
  }

  /** Rules 17 and 18: a percentage deductible, attachment, limit and share without the ledger. */
  function ShareRule(x: LossRec, ded: real, att: real, lim: real, share: real): LossRec {
    var gross := Max0(x.loss - ded);
    Deducted(x, gross).(loss := Times(Excess(gross, att, lim), share))
  }

  method ApplyShareRule(x0: LossRec, ded: real, att: real, lim: real, share: real) returns (x: LossRec)
    ensures x == ShareRule(x0, ded, att, lim, share)
  {
    var loss;
    x, loss := Deduct(x0, ded);
    if loss > att + lim { loss := lim; } else { loss := loss - att; }
    if loss < 0.0 { loss := 0.0; }
    x := x.(loss := Times(loss, share));
  }

  predicate HasMinMax(id: int) {
    id == 7 || id == 8 || id == 10 || id == 11 || id == 13 || id == 19 || id == 21 || id == 26 || id == 35 || id == 36
  }

  /** What a rule makes of a record; an unknown rule, like the no-op, leaves it alone. */
  function Rule(p: Profile, x: LossRec, layer: int): LossRec {
    var id := p.calcrule_id;
    if KeepsLedger(id) then LayerRule(p, x, layer)
    else if HasMinMax(id) then MinMaxRule(p, x)
    else if id == 17 then ShareRule(x, Times(p.deductible_1, x.loss), p.attachment_1, p.limit_1, p.share_1)
    else if id == 18 then ShareRule(x, Times(p.deductible_1, x.accumulated_tiv), p.attachment_1, p.limit_1, p.share_1)
    else DeductibleRule(p, x)
  }

  method ApplyCalcRule(profile: Profile, x0: LossRec, layer: int) returns (x: LossRec)
    ensures x == Rule(profile, x0, layer)
  {
    var id := profile.calcrule_id;
    if KeepsLedger(id) {
      x := ApplyLayerRule(profile, x0, layer);
    } else if HasMinMax(id) {
      x := ApplyMinMaxRule(profile, x0);
    } else if id == 17 {
      x := ApplyShareRule(x0, Times(profile.deductible_1, x0.loss),
                          profile.attachment_1, profile.limit_1, profile.share_1);
    } else if id == 18 {
      x := ApplyShareRule(x0, Times(profile.deductible_1, x0.accumulated_tiv),
                          profile.attachment_1, profile.limit_1, profile.share_1);
    } else {
      x := ApplyDeductibleRule(profile, x0);
    }
  }
}
