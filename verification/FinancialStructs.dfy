/** The records of fmstructs.h that the financial module passes around. */
module FinancialStructs {

  datatype Option<+T> = None | Some(value: T)

  /**
    The running state of one aggregate at one level and layer. item_idx and item_prop are
    pointers in the program; None is the null pointer.
  */
  datatype LossRec = LossRec(
    loss: real,
    retained_loss: real,
    proportion: real,
    gul_total: real,
    previous_layer_retained_loss: real,
    effective_deductible: real,
    accumulated_tiv: real,
    over_limit: real,
    under_limit: real,
    step_loss: real,
    agg_id: int,
    policytc_id: int,
    item_idx: Option<seq<nat>>,
    item_prop: Option<seq<real>>)

  const FRESH: LossRec := LossRec(0.0, 0.0, 0.0, 0.0, 0.0, 0.0, 0.0, 0.0, 0.0, 0.0, 0, 0, None, None)

  /** A policy's calculation rule and terms. A term the profile does not set is 0. */
  datatype Profile = Profile(
    calcrule_id: int,
    deductible_1: real,
    deductible_2: real,
    deductible_3: real,
    attachment_1: real,
    limit_1: real,
    share_1: real,
    share_2: real,
    share_3: real)

  /** An aggregate of the hierarchy: the items below it and the policy that applies to it. */
  datatype PolicyNode = PolicyNode(policytc_id: int, agg_id: int, item_idx: seq<nat>)

  const NOOP: int := 100

  /** What stands in for no maximum deductible. */
  const NO_MAXIMUM: real := 9999999999.0
}
