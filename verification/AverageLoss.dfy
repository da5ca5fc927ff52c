/**
  aalcalc: one walk over the index, sorted by summary and period, adds up the average annual
  loss and its square. The walk keeps only the sums of the current period; it is right
  because the lines of a summary and period stand together.
*/
module AverageLoss {
  import opened RealSums
  import opened SummaryIndex

  /** A line of the index, with the samples that stand at its offset. */
  datatype Line = Line(summary_id: nat, period_no: nat, samples: seq<SampleRec>)

  // ---------- the direct definition ----------

  /** Where a sample is counted: the mean, whose sidx is -1, at 0. */
  function Slot(sidx: int): int { if sidx == -1 then 0 else sidx }

  /** The positive losses of one line for one sample. */
  function LineSum(samples: seq<SampleRec>, i: nat): real {
    if samples == [] then 0.0
    else
      var x := samples[|samples| - 1];
      LineSum(samples[..|samples| - 1], i) + if x.loss > 0.0 && Slot(x.sidx) == i then x.loss else 0.0
  }

  /** The loss of a summary in a period, for one sample: all its events in that period together. */
  function CellSum(lines: seq<Line>, s: nat, p: nat, i: nat): real {
    if lines == [] then 0.0
    else
      var l := lines[|lines| - 1];
      CellSum(lines[..|lines| - 1], s, p, i)
      + if l.summary_id == s && l.period_no == p then LineSum(l.samples, i) else 0.0
  }

  /** The cells of a period for n samples: from 1 on for the samples, 0 alone for the mean. */
  function Row(lines: seq<Line>, s: nat, p: nat, lo: nat, n: nat): (r: seq<real>)
    ensures |r| == n && forall i :: 0 <= i < n ==> r[i] == CellSum(lines, s, p, lo + i)
  {
    if n == 0 then [] else Row(lines, s, p, lo, n - 1) + [CellSum(lines, s, p, lo + n - 1)]
  }

  /** The cells of a summary: all samples of periods 1 to periods. */
  function Cells(lines: seq<Line>, s: nat, periods: nat, lo: nat, n: nat): (r: seq<real>)
    ensures |r| == periods * n
  {
    if periods == 0 then [] else Cells(lines, s, periods - 1, lo, n) + Row(lines, s, periods, lo, n)
  }

  function Squares(s: seq<real>): (r: seq<real>)
    ensures |r| == |s| && forall i :: 0 <= i < |s| ==> r[i] == Times(s[i], s[i])
  {
    seq(|s|, i requires 0 <= i < |s| => Times(s[i], s[i]))
  }

  lemma SquaresConcat(a: seq<real>, b: seq<real>)
    ensures Squares(a + b) == Squares(a) + Squares(b)
  {}

  // ---------- one more line ----------

  lemma CellSnoc(lines: seq<Line>, l: Line, s: nat, p: nat, i: nat)
    ensures CellSum(lines + [l], s, p, i)
            == CellSum(lines, s, p, i) + if l.summary_id == s && l.period_no == p then LineSum(l.samples, i) else 0.0
  {
    assert (lines + [l])[..|lines|] == lines;
  }

  /** The loss of a summary over all periods and samples, and the same of the squares. */
  function Mean(lines: seq<Line>, s: nat, periods: nat, lo: nat, n: nat): real { Sum(Cells(lines, s, periods, lo, n)) }

  function MeanSquared(lines: seq<Line>, s: nat, periods: nat, lo: nat, n: nat): real {
    Sum(Squares(Cells(lines, s, periods, lo, n)))
  }

  function PeriodMean(lines: seq<Line>, s: nat, p: nat, lo: nat, n: nat): real { Sum(Row(lines, s, p, lo, n)) }

  function PeriodSquared(lines: seq<Line>, s: nat, p: nat, lo: nat, n: nat): real {
    Sum(Squares(Row(lines, s, p, lo, n)))
  }

  lemma CellsSplit(lines: seq<Line>, s: nat, periods: nat, lo: nat, n: nat)
    requires periods > 0
    ensures Mean(lines, s, periods, lo, n) == Mean(lines, s, periods - 1, lo, n) + PeriodMean(lines, s, periods, lo, n)
    ensures MeanSquared(lines, s, periods, lo, n)
            == MeanSquared(lines, s, periods - 1, lo, n) + PeriodSquared(lines, s, periods, lo, n)
  {
    var a, b := Cells(lines, s, periods - 1, lo, n), Row(lines, s, periods, lo, n);
    SumConcat(a, b);
    SquaresConcat(a, b);
    SumConcat(Squares(a), Squares(b));
  }

  /** Other summaries and periods are not affected by a line. */
  lemma {:induction false} OthersSame(lines: seq<Line>, l: Line, s: nat, periods: nat, lo: nat, n: nat)
    requires l.summary_id != s || l.period_no > periods
    ensures Mean(lines + [l], s, periods, lo, n) == Mean(lines, s, periods, lo, n)
    ensures MeanSquared(lines + [l], s, periods, lo, n) == MeanSquared(lines, s, periods, lo, n)
  {
    if periods > 0 {
      OthersSame(lines, l, s, periods - 1, lo, n);
      CellsSplit(lines, s, periods, lo, n);
      CellsSplit(lines + [l], s, periods, lo, n);
      RowSame(lines, l, s, periods, lo, n);
    }
  }

  /** A line changes the cells of its own period. */
  lemma {:induction false} OwnPeriod(lines: seq<Line>, l: Line, s: nat, periods: nat, lo: nat, n: nat)
    requires l.summary_id == s && 1 <= l.period_no <= periods
    ensures Mean(lines + [l], s, periods, lo, n) - PeriodMean(lines + [l], s, l.period_no, lo, n)
            == Mean(lines, s, periods, lo, n) - PeriodMean(lines, s, l.period_no, lo, n)
    ensures MeanSquared(lines + [l], s, periods, lo, n) - PeriodSquared(lines + [l], s, l.period_no, lo, n)
            == MeanSquared(lines, s, periods, lo, n) - PeriodSquared(lines, s, l.period_no, lo, n)
  {
    CellsSplit(lines, s, periods, lo, n);
    CellsSplit(lines + [l], s, periods, lo, n);
    if l.period_no == periods {
      OthersSame(lines, l, s, periods - 1, lo, n);
    } else {
      OwnPeriod(lines, l, s, periods - 1, lo, n);
      RowSame(lines, l, s, periods, lo, n);
    }
  }

  lemma RowSame(lines: seq<Line>, l: Line, s: nat, p: nat, lo: nat, n: nat)
    requires l.summary_id != s || l.period_no != p
    ensures Row(lines + [l], s, p, lo, n) == Row(lines, s, p, lo, n)
  {
    forall i | 0 <= i < n ensures Row(lines + [l], s, p, lo, n)[i] == Row(lines, s, p, lo, n)[i] {
      CellSnoc(lines, l, s, p, lo + i);
    }
  }

  /** Cells nothing has been added to. */
  ghost predicate Untouched(lines: seq<Line>, s: nat, p: nat) {
    forall i :: 0 <= i < |lines| ==> lines[i].summary_id != s || lines[i].period_no != p
  }

  lemma {:induction false} UntouchedCell(lines: seq<Line>, s: nat, p: nat, i: nat)
    requires Untouched(lines, s, p)
    ensures CellSum(lines, s, p, i) == 0.0
  {
    if lines != [] { UntouchedCell(lines[..|lines| - 1], s, p, i); }
  }

  lemma UntouchedRow(lines: seq<Line>, s: nat, p: nat, lo: nat, n: nat)
    requires Untouched(lines, s, p)
    ensures PeriodMean(lines, s, p, lo, n) == 0.0 && PeriodSquared(lines, s, p, lo, n) == 0.0
  {
    forall i: nat | i < n ensures Row(lines, s, p, lo, n)[i] == 0.0 { UntouchedCell(lines, s, p, lo + i); }
    TimesZero(0.0);
    ZeroSum(Row(lines, s, p, lo, n));
    ZeroSum(Squares(Row(lines, s, p, lo, n)));
  }

  // ---------- the walk ----------

  /** The running totals of a summary. */
  datatype AalRec = AalRec(mean: real, mean_squared: real)

  /** The order of the index: by summary, then by period. Files and offsets do not matter here. */
  ghost predicate InOrder(lines: seq<Line>) {
    forall i, j :: 0 <= i < j < |lines| ==>
      lines[i].summary_id < lines[j].summary_id
      || (lines[i].summary_id == lines[j].summary_id && lines[i].period_no <= lines[j].period_no)
  }

  /** Summaries, periods and samples within the sizes of the vectors. */
  ghost predicate Fits(lines: seq<Line>, summaries: nat, periods: nat, n: nat) {
    forall i :: 0 <= i < |lines| ==> LineFits(lines[i], summaries, periods, n)
  }

  ghost predicate LineFits(l: Line, summaries: nat, periods: nat, n: nat) {
    l.summary_id <= summaries && 1 <= l.period_no <= periods
    && forall k :: 0 <= k < |l.samples| ==> 0 <= Slot(l.samples[k].sidx) <= n
  }

  /** All periods seen have been added in. */
  ghost predicate Settled(lines: seq<Line>, aal: seq<AalRec>, periods: nat, lo: nat, n: nat) {
    forall s: nat :: s < |aal| ==>
      aal[s] == AalRec(Mean(lines, s, periods, lo, n), MeanSquared(lines, s, periods, lo, n))
  }

  /** The same, but for the current period of the current summary. */
  ghost predicate Pending(lines: seq<Line>, aal: seq<AalRec>, periods: nat, lo: nat, n: nat, s0: nat, p0: nat) {
    forall s: nat :: s < |aal| ==>
      aal[s] == if s == s0
                then AalRec(Mean(lines, s, periods, lo, n) - PeriodMean(lines, s, p0, lo, n),
                            MeanSquared(lines, s, periods, lo, n) - PeriodSquared(lines, s, p0, lo, n))
                else AalRec(Mean(lines, s, periods, lo, n), MeanSquared(lines, s, periods, lo, n))
  }

  /** One more line of the current period leaves what has been added in alone. */
  lemma PendingSnoc(lines: seq<Line>, l: Line, aal: seq<AalRec>, periods: nat, lo: nat, n: nat)
    requires Pending(lines, aal, periods, lo, n, l.summary_id, l.period_no) && 1 <= l.period_no <= periods
    ensures Pending(lines + [l], aal, periods, lo, n, l.summary_id, l.period_no)
  {
    forall s: nat | s < |aal|
      ensures s != l.summary_id ==> Mean(lines + [l], s, periods, lo, n) == Mean(lines, s, periods, lo, n)
                                    && MeanSquared(lines + [l], s, periods, lo, n)
                                       == MeanSquared(lines, s, periods, lo, n)
    {
      if s != l.summary_id { OthersSame(lines, l, s, periods, lo, n); }
    }
    OwnPeriod(lines, l, l.summary_id, periods, lo, n);
  }

  /** With nothing seen of a period yet, it is pending whatever else is settled. */
  lemma SettledIsPending(lines: seq<Line>, aal: seq<AalRec>, periods: nat, lo: nat, n: nat, s: nat, p: nat)
    requires Settled(lines, aal, periods, lo, n) && Untouched(lines, s, p)
    ensures Pending(lines, aal, periods, lo, n, s, p)
  {
    UntouchedRow(lines, s, p, lo, n);
  }

  /** The sums of the current period, mean first. */
  ghost predicate Current(lines: seq<Line>, sums: seq<real>, s: nat, p: nat, n: nat) {
    |sums| == n + 1 && forall i :: 0 <= i <= n ==> sums[i] == CellSum(lines, s, p, i)
  }

  /** Adding the sums of a period settles it. */
  lemma Settle(lines: seq<Line>, aal: seq<AalRec>, periods: nat, lo: nat, n: nat, s: nat, p: nat, row: seq<real>)
    requires Pending(lines, aal, periods, lo, n, s, p) && s < |aal| && row == Row(lines, s, p, lo, n)
    ensures Settled(lines, Added(aal, s, row), periods, lo, n)
  {}

  lemma CurrentRows(lines: seq<Line>, sums: seq<real>, s: nat, p: nat, n: nat)
    requires Current(lines, sums, s, p, n)
    ensures sums[1..] == Row(lines, s, p, 1, n) && sums[..1] == Row(lines, s, p, 0, 1)
  {}

  class AalCalc {
    var vec_sample_sum_loss: seq<real>
    var vec_sample_aal: seq<AalRec>
    var vec_analytical_aal: seq<AalRec>
    const samplesize: nat

    constructor (samplesize: nat, summaries: nat)
      ensures this.samplesize == samplesize && vec_sample_sum_loss == Zeros(samplesize + 1)
      ensures |vec_sample_aal| == |vec_analytical_aal| == summaries + 1
      ensures forall s :: 0 <= s <= summaries ==> vec_sample_aal[s] == vec_analytical_aal[s] == AalRec(0.0, 0.0)
    {
      this.samplesize := samplesize;
      vec_sample_sum_loss := Zeros(samplesize + 1);
      vec_sample_aal := seq(summaries + 1, _ => AalRec(0.0, 0.0));
      vec_analytical_aal := seq(summaries + 1, _ => AalRec(0.0, 0.0));
    }

    /** do_calc_end without weights: the sums of a period are added to the summary, and cleared. */
    method DoCalcEnd(current_summary_id: nat)
      requires current_summary_id < |vec_sample_aal| == |vec_analytical_aal| && |vec_sample_sum_loss| == samplesize + 1
      modifies this
      ensures vec_sample_sum_loss == Zeros(samplesize + 1)
      ensures vec_sample_aal == Added(old(vec_sample_aal), current_summary_id, old(vec_sample_sum_loss)[1..])
      ensures vec_analytical_aal == Added(old(vec_analytical_aal), current_summary_id, old(vec_sample_sum_loss)[..1])
    {
      ghost var sums := vec_sample_sum_loss;
      for sidx := 0 to samplesize + 1
        invariant vec_sample_sum_loss == sums
        invariant vec_sample_aal == if sidx <= 1 then old(vec_sample_aal)
                                    else Added(old(vec_sample_aal), current_summary_id, sums[1..sidx])
        invariant vec_analytical_aal == if sidx == 0 then old(vec_analytical_aal)
                                        else Added(old(vec_analytical_aal), current_summary_id, sums[..1])
      {
        var mean := vec_sample_sum_loss[sidx];
        if sidx > 0 {
          AddedSnoc(old(vec_sample_aal), current_summary_id, sums[1..sidx], mean);
          assert sums[1..sidx + 1] == sums[1..sidx] + [mean];
          vec_sample_aal := AddCell(vec_sample_aal, current_summary_id, mean);
        } else {
          AddedSnoc(old(vec_analytical_aal), current_summary_id, [], mean);
          assert sums[..1] == [] + [mean];
          vec_analytical_aal := AddCell(vec_analytical_aal, current_summary_id, mean);
        }
      }
      if samplesize == 0 { AddedNothing(old(vec_sample_aal), current_summary_id); }
      assert sums[1..samplesize + 1] == sums[1..];
      vec_sample_sum_loss := Zeros(samplesize + 1);
    }

    /** do_calc_by_period: the positive losses of one line join the sums of the period. */
    method DoCalcByPeriod(vrec: seq<SampleRec>)
      requires |vec_sample_sum_loss| == samplesize + 1
      requires forall k :: 0 <= k < |vrec| ==> 0 <= Slot(vrec[k].sidx) <= samplesize
      modifies this`vec_sample_sum_loss
      ensures |vec_sample_sum_loss| == samplesize + 1
      ensures forall i :: 0 <= i <= samplesize ==>
                vec_sample_sum_loss[i] == old(vec_sample_sum_loss[i]) + LineSum(vrec, i)
    {
      for k := 0 to |vrec|
        invariant |vec_sample_sum_loss| == samplesize + 1
        invariant forall i :: 0 <= i <= samplesize ==>
                    vec_sample_sum_loss[i] == old(vec_sample_sum_loss[i]) + LineSum(vrec[..k], i)
      {
        assert vrec[..k + 1][..k] == vrec[..k];
        var x := vrec[k];
        if x.loss > 0.0 {
          var sidx := if x.sidx == -1 then 0 else x.sidx;
          vec_sample_sum_loss := vec_sample_sum_loss[sidx := vec_sample_sum_loss[sidx] + x.loss];
        }
      }
      assert vrec[..|vrec|] == vrec;
    }

    /** The walk is in the middle of period p of summary s, after these lines. */
    ghost predicate Walking(lines: seq<Line>, periods: nat, s: nat, p: nat)
      reads this
    {
      && s < |vec_sample_aal| == |vec_analytical_aal|
      && Pending(lines, vec_sample_aal, periods, 1, samplesize, s, p)
      && Pending(lines, vec_analytical_aal, periods, 0, 1, s, p)
      && Current(lines, vec_sample_sum_loss, s, p, samplesize)
    }

    /** The walk is between periods. */
    ghost predicate Resting(lines: seq<Line>, periods: nat)
      reads this
    {
      && |vec_sample_aal| == |vec_analytical_aal|
      && Settled(lines, vec_sample_aal, periods, 1, samplesize)
      && Settled(lines, vec_analytical_aal, periods, 0, 1)
      && vec_sample_sum_loss == Zeros(samplesize + 1)
    }

    /** The end of a period. */
    method FinishPeriod(ghost lines: seq<Line>, ghost periods: nat, current_summary_id: nat, ghost p: nat)
      requires Walking(lines, periods, current_summary_id, p)
      modifies this
      ensures Resting(lines, periods) && |vec_sample_aal| == old(|vec_sample_aal|)
    {
      CurrentRows(lines, vec_sample_sum_loss, current_summary_id, p, samplesize);
      Settle(lines, vec_sample_aal, periods, 1, samplesize, current_summary_id, p, vec_sample_sum_loss[1..]);
      Settle(lines, vec_analytical_aal, periods, 0, 1, current_summary_id, p, vec_sample_sum_loss[..1]);
      DoCalcEnd(current_summary_id);
    }

    /** A line of the period the walk is in, or of a new one. */
    method AddLine(ghost lines: seq<Line>, l: Line, ghost periods: nat)
      requires l.summary_id < |vec_sample_aal| && LineFits(l, |vec_sample_aal| - 1, periods, samplesize)
      requires Walking(lines, periods, l.summary_id, l.period_no)
               || (Resting(lines, periods) && Untouched(lines, l.summary_id, l.period_no))
      modifies this`vec_sample_sum_loss
      ensures Walking(lines + [l], periods, l.summary_id, l.period_no)
    {
      if Resting(lines, periods) && Untouched(lines, l.summary_id, l.period_no) {
        SettledIsPending(lines, vec_sample_aal, periods, 1, samplesize, l.summary_id, l.period_no);
        SettledIsPending(lines, vec_analytical_aal, periods, 0, 1, l.summary_id, l.period_no);
        NothingYet(lines, l.summary_id, l.period_no, samplesize);
      }
      PendingSnoc(lines, l, vec_sample_aal, periods, 1, samplesize);
      PendingSnoc(lines, l, vec_analytical_aal, periods, 0, 1);
      CurrentSnoc(lines, l, vec_sample_sum_loss, samplesize);
      DoCalcByPeriod(l.samples);
    }

    /** The walk over the whole index. */
    method DoIt(lines: seq<Line>, ghost periods: nat)
      requires Resting([], periods) && |vec_sample_aal| >= 1
      requires InOrder(lines) && Fits(lines, |vec_sample_aal| - 1, periods, samplesize)
      modifies this
      ensures Resting(lines, periods) && |vec_sample_aal| == old(|vec_sample_aal|)
    {
      var last_summary_id: int, last_period_no: int := -1, -1;
      for k := 0 to |lines|
        invariant |vec_sample_aal| == old(|vec_sample_aal|)
        invariant k == 0 ==> last_summary_id == -1 && last_period_no == -1 && Resting([], periods)
        invariant k > 0 ==> last_summary_id == lines[k - 1].summary_id && last_period_no == lines[k - 1].period_no
                            && Walking(lines[..k], periods, lines[k - 1].summary_id, lines[k - 1].period_no)
      {
        var l := lines[k];
        assert LineFits(l, |vec_sample_aal| - 1, periods, samplesize);
        var current: int := last_summary_id;
        if last_summary_id != l.summary_id {
          if last_summary_id != -1 {
            FinishPeriod(lines[..k], periods, current, lines[k - 1].period_no);
          }
          last_period_no := -1;
          current := l.summary_id;
          last_summary_id := l.summary_id;
        }
        if last_period_no != l.period_no {
          if last_period_no != -1 {
            FinishPeriod(lines[..k], periods, current, lines[k - 1].period_no);
          }
          last_period_no := l.period_no;
        }
        NewKeyUntouched(lines, k);
        assert lines[..k + 1] == lines[..k] + [l];
        assert k == 0 ==> lines[..k] == [];
        AddLine(lines[..k], l, periods);
      }
      assert lines[..|lines|] == lines;
      if last_summary_id != -1 {
        FinishPeriod(lines, periods, last_summary_id, lines[|lines| - 1].period_no);
      }
    }
  }

  /** Where a new summary or period begins, none of its lines has been seen. */
  lemma NewKeyUntouched(lines: seq<Line>, k: nat)
    requires k < |lines| && InOrder(lines)
    ensures k == 0 || lines[k - 1].summary_id != lines[k].summary_id || lines[k - 1].period_no != lines[k].period_no ==>
              Untouched(lines[..k], lines[k].summary_id, lines[k].period_no)
  {
    if k > 0 && (lines[k - 1].summary_id != lines[k].summary_id || lines[k - 1].period_no != lines[k].period_no) {
      forall i | 0 <= i < k
        ensures lines[i].summary_id != lines[k].summary_id || lines[i].period_no != lines[k].period_no
      {
        if i < k - 1 {
          assert lines[i].summary_id < lines[k - 1].summary_id
                 || (lines[i].summary_id == lines[k - 1].summary_id && lines[i].period_no <= lines[k - 1].period_no);
        }
        assert lines[k - 1].summary_id < lines[k].summary_id
               || (lines[k - 1].summary_id == lines[k].summary_id && lines[k - 1].period_no <= lines[k].period_no);
      }
    }
  }

  lemma NothingYet(lines: seq<Line>, s: nat, p: nat, n: nat)
    requires Untouched(lines, s, p)
    ensures Current(lines, Zeros(n + 1), s, p, n)
  {
    forall i | 0 <= i <= n ensures CellSum(lines, s, p, i) == 0.0 { UntouchedCell(lines, s, p, i); }
  }

  lemma CurrentSnoc(lines: seq<Line>, l: Line, sums: seq<real>, n: nat)
    requires Current(lines, sums, l.summary_id, l.period_no, n)
    ensures forall i :: 0 <= i <= n ==>
              CellSum(lines + [l], l.summary_id, l.period_no, i) == sums[i] + LineSum(l.samples, i)
  {
    forall i | 0 <= i <= n
      ensures CellSum(lines + [l], l.summary_id, l.period_no, i) == sums[i] + LineSum(l.samples, i)
    {
      CellSnoc(lines, l, l.summary_id, l.period_no, i);
    }
  }

  lemma {:induction false} NoLines(s: nat, periods: nat, lo: nat, n: nat)
    ensures Mean([], s, periods, lo, n) == 0.0 && MeanSquared([], s, periods, lo, n) == 0.0
  {
    if periods > 0 {
      NoLines(s, periods - 1, lo, n);
      CellsSplit([], s, periods, lo, n);
      UntouchedRow([], s, periods, lo, n);
    } else {
      assert Squares([]) == [];
    }
  }

  lemma NothingSettled(aal: seq<AalRec>, periods: nat, lo: nat, n: nat)
    requires forall s :: 0 <= s < |aal| ==> aal[s] == AalRec(0.0, 0.0)
    ensures Settled([], aal, periods, lo, n)
  {
    forall s: nat | s < |aal|
      ensures Mean([], s, periods, lo, n) == 0.0 && MeanSquared([], s, periods, lo, n) == 0.0
    {
      NoLines(s, periods, lo, n);
    }
  }

  /** A whole run: every summary's totals are the direct sums over its periods and samples. */
  method AverageAnnualLoss(lines: seq<Line>, summaries: nat, ghost periods: nat, samplesize: nat)
      returns (sample: seq<AalRec>, analytical: seq<AalRec>)
    requires InOrder(lines) && Fits(lines, summaries, periods, samplesize)
    ensures |sample| == |analytical| == summaries + 1
    ensures forall s: nat :: s <= summaries ==>
              sample[s] == AalRec(Mean(lines, s, periods, 1, samplesize), MeanSquared(lines, s, periods, 1, samplesize))
    ensures forall s: nat :: s <= summaries ==>
              analytical[s] == AalRec(Mean(lines, s, periods, 0, 1), MeanSquared(lines, s, periods, 0, 1))
  {
    var aal := new AalCalc(samplesize, summaries);
    NothingSettled(aal.vec_sample_aal, periods, 1, samplesize);
    NothingSettled(aal.vec_analytical_aal, periods, 0, 1);
    aal.DoIt(lines, periods);
    sample, analytical := aal.vec_sample_aal, aal.vec_analytical_aal;
  }

  // ---------- adding cells ----------

  function AddCell(aal: seq<AalRec>, s: nat, x: real): seq<AalRec>
    requires s < |aal|
  {
    aal[s := AalRec(aal[s].mean + x, aal[s].mean_squared + Times(x, x))]
  }

  function Added(aal: seq<AalRec>, s: nat, row: seq<real>): seq<AalRec>
    requires s < |aal|
  {
    aal[s := AalRec(aal[s].mean + Sum(row), aal[s].mean_squared + Sum(Squares(row)))]
  }

  lemma AddedNothing(aal: seq<AalRec>, s: nat)
    requires s < |aal|
    ensures Added(aal, s, []) == aal
  {
    assert Squares([]) == [];
  }

  lemma AddedSnoc(aal: seq<AalRec>, s: nat, row: seq<real>, x: real)
    requires s < |aal|
    ensures Added(aal, s, row + [x]) == AddCell(Added(aal, s, row), s, x)
    ensures row == [] ==> Added(aal, s, row) == aal
  {
    SumSnoc(row, x);
    SquaresConcat(row, [x]);
    assert Squares([x]) == [Times(x, x)];
    SumSnoc(Squares(row), Times(x, x));
    if row == [] { AddedNothing(aal, s); }
  }

  // ---------- the variance ----------

  lemma SquareNonNegative(a: real)
    ensures a * a >= 0.0
  {}

  /** (m q - s s) only grows when a cell is added. */
  lemma OneMoreInMean(m: nat, s: real, q: real, x: real)
    requires s * s <= m as real * q && (m == 0 ==> s == 0.0 && q == 0.0)
    ensures (s + x) * (s + x) <= (m + 1) as real * (q + x * x)
  {
    var n := m as real;
    if m > 0 {
      SquareNonNegative(s - n * x);
      assert (s - n * x) * (s - n * x) == s * s - 2.0 * (n * (s * x)) + n * (n * (x * x));
      assert n * (2.0 * (s * x)) <= n * (q + n * (x * x));
      CancelFactor(n, 2.0 * (s * x), q + n * (x * x));
    }
    assert (s + x) * (s + x) == s * s + 2.0 * (s * x) + x * x;
    assert (n + 1.0) * (q + x * x) == n * q + q + n * (x * x) + x * x;
  }

  lemma CancelFactor(n: real, a: real, b: real)
    requires n > 0.0 && n * a <= n * b
    ensures a <= b
  {
    assert a > b ==> n * (a - b) > 0.0;
  }

  /** The square of a sum is at most the number of terms times the sum of the squares. */
  lemma {:induction false} CauchySchwarz(s: seq<real>)
    ensures Sum(s) * Sum(s) <= |s| as real * Sum(Squares(s))
  {
    if s != [] {
      var n := |s| - 1;
      CauchySchwarz(s[..n]);
      assert s == s[..n] + [s[n]];
      SquaresConcat(s[..n], [s[n]]);
      assert Squares([s[n]]) == [Times(s[n], s[n])];
      SumSnoc(Squares(s[..n]), Times(s[n], s[n]));
      OneMoreInMean(n, Sum(s[..n]), Sum(Squares(s[..n])), s[n]);
    }
  }

  /** s1 of outputresultscsv_new: the squares less the square of the mean. */
  function CentredSquares(cells: seq<real>): real
    requires cells != []
  {
    Sum(Squares(cells)) - Sum(cells) * Sum(cells) / |cells| as real
  }

  /**
    What outputresultscsv_new takes the square root of is never negative, for the samples and
    for the mean; the cells are the periods times the samples. With a single cell there is
    nothing to divide by, and nothing to divide.
  */
  lemma VarianceNonNegative(lines: seq<Line>, s: nat, periods: nat, lo: nat, n: nat)
    requires Cells(lines, s, periods, lo, n) != []
    ensures var cells := Cells(lines, s, periods, lo, n);
            if |cells| > 1 then CentredSquares(cells) / (|cells| - 1) as real >= 0.0 else CentredSquares(cells) == 0.0
  {
    SpreadOfCells(Cells(lines, s, periods, lo, n));
  }

  lemma SpreadOfCells(cells: seq<real>)
    requires cells != []
    ensures if |cells| > 1 then CentredSquares(cells) / (|cells| - 1) as real >= 0.0 else CentredSquares(cells) == 0.0
  {
    CauchySchwarz(cells);
    QuotientBound(Sum(cells) * Sum(cells), |cells| as real, Sum(Squares(cells)));
    if |cells| == 1 {
      SingleCell(cells);
    } else {
      PositiveQuotient(CentredSquares(cells), (|cells| - 1) as real);
    }
  }

  lemma PositiveQuotient(a: real, b: real)
    requires a >= 0.0 && b > 0.0
    ensures a / b >= 0.0
  {}

  lemma SingleCell(cells: seq<real>)
    requires |cells| == 1
    ensures Sum(Squares(cells)) == Sum(cells) * Sum(cells)
  {
    SingleSum(cells);
    SingleSum(Squares(cells));
  }

  lemma SingleSum(s: seq<real>)
    requires |s| == 1
    ensures Sum(s) == s[0]
  {
    assert s[..0] == [];
  }

  lemma QuotientBound(a: real, m: real, q: real)
    requires m > 0.0 && a <= m * q
    ensures q - a / m >= 0.0
  {
    assert (a / m) * m == a;
    if a / m > q { CancelFactor(m, a / m, q); }
  }
}
