/**
  What the calculation rules pay, and what they leave on the books, said of the record before
  and the record after in the bands of the loss: below the deductible, between, and above the
  limit.
*/
module RuleEffects {
  import opened FinancialStructs
  import opened RealSums
  import opened CalcRules
  import opened RuleLaws

  // ---------- bands ----------

  /** Nothing up to the deductible, the loss above it, and no more than the limit. */
  predicate Band(before: real, after: real, ded: real, lim: real) {
    (before <= ded ==> after == 0.0)
    && (ded <= before <= ded + lim ==> after == before - ded)
    && (before >= ded + lim ==> after == lim)
  }

  /** A layer: nothing up to its start, a share of the loss above it, and no more than the share of its limit. */
  predicate Layered(before: real, after: real, start: real, lim: real, share: real) {
    (before <= start ==> after == 0.0)
    && (start <= before <= start + lim ==> after == Times(before - start, share))
    && (before >= start + lim ==> after == Times(lim, share))
  }

  /** What a deductible takes: the deductible, or the whole loss if that is less. */
  predicate Takes(loss: real, ded: real, taken: real) {
    (loss <= ded ==> taken == loss) && (loss >= ded ==> taken == ded)
  }

  /** The amount of the deductible of a rule that has one. */
  function Deductible(p: Profile, x: LossRec): real {
    match p.calcrule_id
    case 4 => Times(p.deductible_1, x.accumulated_tiv)
    case 5 => Times(p.deductible_1, x.loss)
    case 6 => Times(p.deductible_1, x.accumulated_tiv)
    case 9 => Times(p.deductible_1, p.limit_1)
    case 14 => 0.0
    case 16 => Times(p.deductible_1, x.loss)
    case 17 => Times(p.deductible_1, x.loss)
    case 18 => Times(p.deductible_1, x.accumulated_tiv)
    case 33 => Times(p.deductible_1, x.loss)
    case _ => p.deductible_1
  }

  /** The limit, where it is not limit_1 itself: rules 5 and 15 limit to a part of the loss. */
  function LimitOf(p: Profile, x: LossRec): real {
    if p.calcrule_id == 5 || p.calcrule_id == 15 then Times(p.limit_1, x.loss) else p.limit_1
  }

  predicate DeductAndLimit(id: int) { id in {1, 4, 5, 9, 14, 15, 33} }

  lemma DeductibleSign(p: Profile, x: LossRec)
    requires Sensible(p) && Sound(x)
    ensures Deductible(p, x) >= 0.0 && LimitOf(p, x) >= 0.0
  {
    TimesNonNegative(p.deductible_1, x.accumulated_tiv);
    TimesNonNegative(p.deductible_1, x.loss);
    TimesNonNegative(p.deductible_1, p.limit_1);
    TimesNonNegative(p.limit_1, x.loss);
  }

  lemma TimesSwap(a: real, b: real)
    ensures Times(a, b) == Times(b, a)
  {}

  // ---------- what is paid ----------

  lemma DeductThenLimitBand(x: LossRec, ded: real, cap: real, lim: real)
    requires x.loss >= 0.0 && ded >= 0.0 && cap >= 0.0
    ensures Band(x.loss, DeductThenLimit(x, ded, cap, lim).loss, ded, cap)
    ensures Band(x.loss, DeductWithinLimit(x, ded, cap, lim).loss, ded, cap)
  {}

  /** Rules with a deductible and a limit pay in bands. */
  lemma LimitRulePays(p: Profile, x: LossRec, layer: int)
    requires Sensible(p) && Sound(x) && DeductAndLimit(p.calcrule_id)
    ensures Band(x.loss, Rule(p, x, layer).loss, Deductible(p, x), LimitOf(p, x))
  {
    DeductibleSign(p, x);
    TimesSwap(p.deductible_1, x.loss);
    TimesSwap(p.limit_1, x.loss);
    if p.calcrule_id != 14 { DeductThenLimitBand(x, Deductible(p, x), LimitOf(p, x), p.limit_1); }
  }

  /** A franchise: nothing below the deductible, the loss from the first unit from there on. */
  lemma FranchisePays(p: Profile, x: LossRec, layer: int)
    requires Sensible(p) && Sound(x) && p.calcrule_id == 3
    ensures var y := Rule(p, x, layer);
            (x.loss < p.deductible_1 ==> y.loss == 0.0)
            && (p.deductible_1 <= x.loss <= p.limit_1 ==> y.loss == x.loss)
            && (x.loss >= p.deductible_1 && x.loss >= p.limit_1 ==> y.loss == p.limit_1)
  {}

  /** Rules with nothing but a deductible pay what it leaves. */
  lemma DeductiblePays(p: Profile, x: LossRec, layer: int)
    requires Sensible(p) && Sound(x) && p.calcrule_id in {6, 12, 16}
    ensures Takes(x.loss, Deductible(p, x), x.loss - Rule(p, x, layer).loss)
  {
    DeductibleSign(p, x);
    TimesSwap(p.deductible_1, x.loss);
  }

  lemma ExcessLayered(gross: real, loss: real, ded: real, att: real, lim: real, share: real)
    requires loss >= 0.0 && ded >= 0.0 && att >= 0.0 && lim >= 0.0 && gross == Max0(loss - ded)
    ensures Layered(loss, Times(Excess(gross, att, lim), share), ded + att, lim, share)
  {
    TimesZero(share);
  }

  /** Rules 2, 17 and 18: the layer starts at the deductible and the attachment point together. */
  lemma AttachmentPays(p: Profile, x: LossRec, layer: int)
    requires Sensible(p) && Sound(x) && p.calcrule_id in {2, 17, 18}
    ensures Layered(x.loss, Rule(p, x, layer).loss, Deductible(p, x) + p.attachment_1, p.limit_1, p.share_1)
  {
    DeductibleSign(p, x);
    ExcessLayered(Max0(x.loss - Deductible(p, x)), x.loss, Deductible(p, x), p.attachment_1, p.limit_1, p.share_1);
  }

  /** Rule 34: the same without a limit. */
  lemma UnlimitedLayerPays(p: Profile, x: LossRec, layer: int)
    requires Sensible(p) && Sound(x) && p.calcrule_id == 34
    ensures var start := p.deductible_1 + p.attachment_1;
            (x.loss <= start ==> Rule(p, x, layer).loss == 0.0)
            && (x.loss >= start ==> Rule(p, x, layer).loss == Times(x.loss - start, p.share_1))
  {
    TimesZero(p.share_1);
  }

  /** Rule 20: all or nothing, the wrong way round: losses above the deductible are not paid. */
  lemma ReversedFranchisePays(p: Profile, x: LossRec, layer: int)
    requires p.calcrule_id == 20
    ensures x.loss <= p.deductible_1 ==> Rule(p, x, layer).loss == x.loss
    ensures x.loss > p.deductible_1 ==> Rule(p, x, layer).loss == 0.0
  {}

  /** Two shares of a loss. */
  function Placed(p: Profile, loss: real): real { Times(Times(loss, p.share_2), p.share_3) }

  lemma PlacedSign(p: Profile, loss: real)
    requires Sensible(p) && loss >= 0.0
    ensures Placed(p, loss) >= 0.0
  {
    TimesNonNegative(loss, p.share_2);
    TimesNonNegative(Times(loss, p.share_2), p.share_3);
  }

  /** Rules 22 and 25: a share of the loss, with and without an occurrence limit, is placed in two more shares. */
  lemma SharePays(p: Profile, x: LossRec, layer: int)
    requires Sensible(p) && Sound(x)
    ensures p.calcrule_id == 22 ==>
              (Times(x.loss, p.share_1) <= p.limit_1 ==> Rule(p, x, layer).loss == Placed(p, Times(x.loss, p.share_1)))
              && (Times(x.loss, p.share_1) >= p.limit_1 ==> Rule(p, x, layer).loss == Placed(p, p.limit_1))
    ensures p.calcrule_id == 25 ==> Rule(p, x, layer).loss == Placed(p, Times(x.loss, p.share_1))
  {
    TimesNonNegative(x.loss, p.share_1);
    PlacedSign(p, Times(x.loss, p.share_1));
    PlacedSign(p, p.limit_1);
  }

  /** Rule 23: the limit is applied to the loss itself. */
  lemma LimitedSharePays(p: Profile, x: LossRec, layer: int)
    requires Sensible(p) && Sound(x) && p.calcrule_id == 23
    ensures x.loss <= p.limit_1 ==> Rule(p, x, layer).loss == Placed(p, x.loss)
    ensures x.loss >= p.limit_1 ==> Rule(p, x, layer).loss == Placed(p, p.limit_1)
  {
    PlacedSign(p, x.loss);
    PlacedSign(p, p.limit_1);
  }

  /** Rule 24: a share of the loss enters a layer, which is placed in two more shares. */
  lemma ExcessOfSharePays(p: Profile, x: LossRec, layer: int)
    requires Sensible(p) && Sound(x) && p.calcrule_id == 24
    ensures var ceded, start, y := Times(x.loss, p.share_1), p.attachment_1, Rule(p, x, layer);
            (ceded <= start ==> y.loss == 0.0)
            && (start <= ceded <= start + p.limit_1 ==> y.loss == Placed(p, ceded - start))
            && (ceded >= start + p.limit_1 ==> y.loss == Placed(p, p.limit_1))
  {
    TimesZero(p.share_2);
    TimesZero(p.share_3);
  }

  /** The no-op, and any rule the switch does not know, leave the record alone. */
  lemma UnknownLeaves(p: Profile, x: LossRec, layer: int)
    requires !(1 <= p.calcrule_id <= 26) && !(33 <= p.calcrule_id <= 36)
    ensures Rule(p, x, layer) == x
  {}

  // ---------- the effective deductible ----------

  /** What a deductible takes joins the effective deductible. */
  lemma DeductibleIsBooked(p: Profile, x: LossRec, layer: int)
    requires Sensible(p) && Sound(x) && p.calcrule_id in {1, 2, 4, 5, 6, 9, 12, 16, 17, 18, 33, 34}
    ensures Takes(x.loss, Deductible(p, x), Rule(p, x, layer).effective_deductible - x.effective_deductible)
  {
    DeductibleSign(p, x);
    TimesSwap(p.deductible_1, x.loss);
  }

  /** So does the loss below a franchise; the other rules without bounds on the deductible book none. */
  lemma NothingElseIsBooked(p: Profile, x: LossRec, layer: int)
    ensures p.calcrule_id == 3 ==>
              Rule(p, x, layer).effective_deductible
              == x.effective_deductible + if x.loss < p.deductible_1 then x.loss else 0.0
    ensures p.calcrule_id in {14, 15, 20, 22, 23, 24, 25} ==>
              Rule(p, x, layer).effective_deductible == x.effective_deductible
  {}

  // ---------- over-limit and under-limit ----------

  /** What the limit cuts off replaces the over-limit; nothing does if it cuts off nothing. */
  lemma CutOffIsBooked(p: Profile, x: LossRec, layer: int)
    requires Sensible(p) && Sound(x) && p.calcrule_id in {1, 4, 5, 9, 14, 33}
    ensures var y, excess := Rule(p, x, layer), x.loss - Deductible(p, x) - LimitOf(p, x);
            if excess > 0.0 then y.over_limit == excess else y.over_limit == x.over_limit
  {
    DeductibleSign(p, x);
    TimesSwap(p.deductible_1, x.loss);
    TimesSwap(p.limit_1, x.loss);
  }

  /** A franchise cuts off what exceeds the limit; rule 15 books the whole drop, deductible included. */
  lemma OtherCutOffs(p: Profile, x: LossRec, layer: int)
    requires Sensible(p) && Sound(x)
    ensures var y := Rule(p, x, layer);
            (p.calcrule_id == 3 ==>
               y.over_limit == if x.loss >= p.deductible_1 && x.loss > p.limit_1 then x.loss - p.limit_1
                               else x.over_limit)
            && (p.calcrule_id == 15 ==> y.over_limit == if x.loss > y.loss then x.loss - y.loss else x.over_limit)
            && (p.calcrule_id in {2, 6, 12, 16, 17, 18, 20, 22, 23, 24, 25, 34} ==> y.over_limit == x.over_limit)
  {}

  /** The room above a loss: up to the limit, and within the carried room where there is any. */
  predicate RoomWithin(x: LossRec, y: LossRec, lim: real) {
    y.loss + y.under_limit <= lim
    && (x.under_limit > 0.0 ==> y.loss + y.under_limit <= x.loss + x.under_limit)
    && (y.loss + y.under_limit == lim || (x.under_limit > 0.0 && y.loss + y.under_limit == x.loss + x.under_limit))
  }

  /** Of the two, the smaller is the room that is left. */
  lemma RoomIsBooked(p: Profile, x: LossRec, layer: int)
    requires p.calcrule_id == 3 || DeductAndLimit(p.calcrule_id)
    ensures RoomWithin(x, Rule(p, x, layer), p.limit_1)
  {}

  /** A deductible alone leaves the top of the room where it is; the rest leave the room alone. */
  lemma OtherRooms(p: Profile, x: LossRec, layer: int)
    requires x.loss >= 0.0
    ensures var y := Rule(p, x, layer);
            (p.calcrule_id in {6, 12, 16} ==> y.loss + y.under_limit == x.loss + x.under_limit)
            && (p.calcrule_id in {2, 17, 18, 20, 22, 23, 24, 25, 34} ==> y.under_limit == x.under_limit)
  {}

  /** Rule 12 retains what it takes; no other rule but those of the ledger touches what is retained. */
  lemma RetainedIsBooked(p: Profile, x: LossRec, layer: int)
    requires x.loss >= 0.0
    ensures p.calcrule_id == 12 ==>
              Rule(p, x, layer).retained_loss + Rule(p, x, layer).loss == x.retained_loss + x.loss
    ensures p.calcrule_id != 12 && !KeepsLedger(p.calcrule_id) ==> Rule(p, x, layer).retained_loss == x.retained_loss
  {}

  // ---------- minimum and maximum deductibles ----------

  /**
    A maximum deductible: the effective deductible becomes the maximum, and what this releases
    goes to the loss as far as there is room, and then to the over-limit. Without any carried
    room or over-limit all of it goes to the loss.
  */
  lemma MaximumEffects(x: LossRec, ded: real, minimum: real, maximum: real, additive: bool)
    requires ded + x.effective_deductible > maximum
    ensures var (y, loss) := MinMax(x, ded, minimum, maximum, additive);
            var released := x.effective_deductible - maximum;
            y.effective_deductible == maximum
            && (!Carried(x) || released <= x.under_limit ==> loss == x.loss + released && y.over_limit == x.over_limit)
            && (Carried(x) ==> loss + y.under_limit == x.loss + x.under_limit)
            && (Carried(x) && released >= x.under_limit ==>
                  y.under_limit == 0.0 && y.over_limit == x.over_limit + released - x.under_limit)
            && (!Carried(x) ==> y.under_limit == x.under_limit)
  {}

  /**
    A minimum deductible: the increase is taken from the over-limit as far as that goes, and
    then from the loss; only the second part is booked as deductible.
  */
  lemma MinimumEffects(x: LossRec, ded: real, minimum: real, maximum: real, additive: bool)
    requires x.loss >= 0.0 && ded >= 0.0
    requires ded + x.effective_deductible <= maximum && ded + x.effective_deductible < minimum
    ensures var (y, loss) := MinMax(x, ded, minimum, maximum, additive);
            var increase := minimum - x.effective_deductible;
            y.effective_deductible + loss == x.effective_deductible + x.loss
            && (if OverEroded(x) then
                  y.under_limit == x.under_limit
                  && (increase <= x.over_limit ==> loss == x.loss && y.over_limit == x.over_limit - increase)
                  && (increase >= x.over_limit ==>
                        y.over_limit == 0.0 && Takes(x.loss, increase - x.over_limit, x.loss - loss))
                else
                  y.over_limit == x.over_limit && Takes(x.loss, increase, x.loss - loss)
                  && (if Carried(x) then loss + y.under_limit == x.loss + x.under_limit
                      else y.under_limit == x.under_limit))
  {}

  /** Between the two bounds a plain deductible, booked by the additive rules only. */
  lemma PlainEffects(x: LossRec, ded: real, minimum: real, maximum: real, additive: bool)
    requires x.loss >= 0.0 && ded >= 0.0
    requires ded + x.effective_deductible <= maximum && ded + x.effective_deductible >= minimum
    ensures var (y, loss) := MinMax(x, ded, minimum, maximum, additive);
            Takes(x.loss, ded, x.loss - loss)
            && y.effective_deductible == x.effective_deductible + (if additive then x.loss - loss else 0.0)
            && y.over_limit == x.over_limit && y.under_limit == x.under_limit
  {}

  /** The bounds that apply to a rule: rule 10 has no minimum, rule 11 no maximum. */
  predicate Bounded(p: Profile, x: LossRec, ded: real) {
    match p.calcrule_id
    case 10 => ded + x.effective_deductible > p.deductible_3
    case 11 => false
    case 7 => ded + x.effective_deductible > p.deductible_3
    case 13 => ded + x.effective_deductible > p.deductible_3
    case 21 => ded + x.effective_deductible > p.deductible_3
    case _ => ded + x.effective_deductible > if p.deductible_3 == 0.0 then NO_MAXIMUM else p.deductible_3
  }

  /** The deductible a bounded rule adds: an amount, a part of the loss, or of the insured value up to the loss. */
  predicate Adds(p: Profile, x: LossRec, ded: real) {
    match p.calcrule_id
    case 19 => ded == Times(p.deductible_1, x.loss)
    case 26 => ded == Times(p.deductible_1, x.loss)
    case 35 => ded == Times(p.deductible_1, x.loss)
    case 21 => Takes(x.loss, Times(p.deductible_1, x.accumulated_tiv), ded)
    case _ => ded == p.deductible_1
  }

  /**
    A rule with bounds does the three things above with its own deductible and bounds, and then
    limits the loss if it has a limit; rule 7 drops what was over earlier limits first.
  */
  lemma BoundedRuleEffects(p: Profile, x: LossRec, layer: int) returns (ded: real, minimum: real, maximum: real)
    requires HasMinMax(p.calcrule_id) && p.calcrule_id != 8
    ensures Adds(p, x, ded) && (ded + x.effective_deductible > maximum <==> Bounded(p, x, ded))
    ensures p.calcrule_id != 11 ==>
              maximum == if p.deductible_3 == 0.0 && p.calcrule_id in {19, 26, 35, 36} then NO_MAXIMUM
                         else p.deductible_3
    ensures if p.calcrule_id == 10 then minimum == ded + x.effective_deductible else minimum == p.deductible_2
    ensures var (y, loss) := MinMax(x, ded, minimum, maximum, !(p.calcrule_id in {10, 11, 13}));
            var z := Rule(p, x, layer);
            z.effective_deductible == y.effective_deductible && z.retained_loss == x.retained_loss
            && (p.calcrule_id in {10, 11, 13, 19, 21} ==>
                  z.loss == loss && z.over_limit == y.over_limit && z.under_limit == y.under_limit)
            && (p.calcrule_id in {26, 35, 36} && Bounded(p, x, ded) ==>
                  z.loss == loss && z.over_limit == y.over_limit && z.under_limit == y.under_limit)
            && (p.calcrule_id == 7 || (p.calcrule_id in {26, 35, 36} && !Bounded(p, x, ded)) ==>
                  LimitedTo(loss, if p.calcrule_id == 7 then 0.0 else y.over_limit, z, BoundedLimit(p, x)))
            && (p.calcrule_id == 7 || (p.calcrule_id == 26 && !Bounded(p, x, ded)) ==> RoomWithin(y, z, p.limit_1))
            && (p.calcrule_id in {35, 36} && !Bounded(p, x, ded) ==> z.under_limit == 0.0)
  {
    MinMaxRuleIs(p, x);
    TimesSwap(p.deductible_1, x.loss);
    TimesSwap(p.deductible_1, x.accumulated_tiv);
    TimesSwap(p.limit_1, x.loss);
    ded, minimum, maximum := FlatOrPercent(p, x), MinimumOf(p, x), MaximumOf(p, x);
  }

  function BoundedLimit(p: Profile, x: LossRec): real {
    if p.calcrule_id == 35 || p.calcrule_id == 36 then Times(p.limit_1, x.loss) else p.limit_1
  }

  /** A loss up to a limit; what is cut off replaces the over-limit. */
  predicate LimitedTo(before: real, over_limit: real, z: LossRec, lim: real) {
    if before <= lim then z.loss == before && z.over_limit == over_limit
    else z.loss == lim && z.over_limit == before - lim
  }

  /** Rule 8: a plain deductible, or an increase up to the minimum, and then a limit. */
  lemma Rule8Effects(p: Profile, x: LossRec, layer: int) returns (gross: real)
    requires p.calcrule_id == 8 && x.loss >= 0.0 && p.deductible_1 >= 0.0
    ensures var z, increase := Rule(p, x, layer), p.deductible_2 - x.effective_deductible;
            LimitedTo(gross, x.over_limit, z, p.limit_1) && RoomWithin(x, z, p.limit_1)
            && (if p.deductible_1 >= increase then
                  Takes(x.loss, p.deductible_1, x.loss - gross) && z.effective_deductible == x.effective_deductible
                else if OverEroded(x) then
                  z.effective_deductible == p.deductible_2
                  && gross == if increase <= x.over_limit then x.loss else x.loss - (increase - x.over_limit)
                else
                  Takes(x.loss, increase, x.loss - gross)
                  && z.effective_deductible == x.effective_deductible + if Carried(x) then 0.0 else x.loss - gross)
  {
    var increase := p.deductible_2 - x.effective_deductible;
    gross := if p.deductible_1 >= increase then (if x.loss <= p.deductible_1 then 0.0 else x.loss - p.deductible_1)
             else if OverEroded(x) then
               (if increase <= x.over_limit then x.loss else x.loss - (increase - x.over_limit))
             else if x.loss <= increase then 0.0 else x.loss - increase;
  }
}
