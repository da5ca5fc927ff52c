/**
  What summarycalc writes and aalcalc adds up, told from the losses alone: which samples are
  written, which blocks an event gets, and what a loss written counts for in the averages.
*/
module SummaryLaws {
  import opened RealSums
  import opened SummaryIndex
  import opened AverageLoss
  import opened IndexWalk

  // ---------- what is written ----------

  /** The mean, as sample -1, and the samples from 1 on, with a loss or where zeros are asked for. */
  predicate IsEmitted(ssl: seq<real>, zerooutput: bool, n: nat, r: SampleRec) {
    && (r.sidx == -1 || r.sidx >= 1) && r.sidx + 2 < n <= |ssl| && r.loss == ssl[r.sidx + 2]
    && (zerooutput || r.loss > 0.0)
  }

  ghost predicate InSidxOrder(recs: seq<SampleRec>) {
    forall a, b :: 0 <= a < b < |recs| ==> recs[a].sidx < recs[b].sidx
  }

  lemma InSidxOrderSnoc(recs: seq<SampleRec>, r: SampleRec)
    requires InSidxOrder(recs) && forall a :: 0 <= a < |recs| ==> recs[a].sidx < r.sidx
    ensures InSidxOrder(recs + [r])
  {}

  /** These are the samples written, each once, in order. */
  lemma {:induction false} EmittedAre(ssl: seq<real>, zerooutput: bool, n: nat)
    requires n <= |ssl|
    ensures forall r :: r in Emitted(ssl, zerooutput, n) <==> IsEmitted(ssl, zerooutput, n, r)
    ensures InSidxOrder(Emitted(ssl, zerooutput, n))
  {
    if n > 0 {
      EmittedAre(ssl, zerooutput, n - 1);
      var before := Emitted(ssl, zerooutput, n - 1);
      forall a | 0 <= a < |before| ensures before[a].sidx < n - 3 {
        assert IsEmitted(ssl, zerooutput, n - 1, before[a]);
      }
      InSidxOrderSnoc(before, SampleRec(n - 3, ssl[n - 1]));
      assert before + [] == before;
    }
  }

  ghost predicate Rising(at: seq<nat>, n: nat) {
    (forall a :: 0 <= a < |at| ==> at[a] < n) && forall a, b :: 0 <= a < b < |at| ==> at[a] < at[b]
  }

  /** The block of a summary of an event. */
  ghost predicate IsBlockOf(b: Block, event_id: int, s: Losses, zerooutput: bool) {
    && b.event_id == event_id && b.summary_id == s.summary_id && b.expval == s.expval
    && b.recs == Emitted(s.ssl, zerooutput, |s.ssl|)
  }

  /** An event gets a block for every summary with exposure, or for all of them, in order. */
  lemma {:induction false} EventBlocksAre(event_id: int, summaries: seq<Losses>, zerooutput: bool)
      returns (at: seq<nat>)
    ensures var blocks := EventBlocks(event_id, summaries, zerooutput);
            && |at| == |blocks| && Rising(at, |summaries|)
            && (forall i: nat :: i < |summaries| ==> (i in at <==> summaries[i].expval > 0.0 || zerooutput))
            && forall a :: 0 <= a < |at| ==> IsBlockOf(blocks[a], event_id, summaries[at[a]], zerooutput)
  {
    if summaries == [] {
      at := [];
    } else {
      var n := |summaries| - 1;
      var s, before := summaries[n], EventBlocks(event_id, summaries[..n], zerooutput);
      at := EventBlocksAre(event_id, summaries[..n], zerooutput);
      assert n !in at;
      if s.expval > 0.0 || zerooutput {
        at := at + [n];
        var b := Block(event_id, s.summary_id, s.expval, Emitted(s.ssl, zerooutput, |s.ssl|));
        assert EventBlocks(event_id, summaries, zerooutput) == before + [b] && IsBlockOf(b, event_id, s, zerooutput);
      } else {
        assert EventBlocks(event_id, summaries, zerooutput) == before;
      }
    }
  }

  // ---------- what is added up ----------

  /** A record counts for the mean as sample -1, and for sample i as that; only if it has a loss. */
  predicate CountsFor(r: SampleRec, i: nat, part: real) {
    part == if r.loss > 0.0 && (if i == 0 then r.sidx == -1 || r.sidx == 0 else r.sidx == i) then r.loss else 0.0
  }

  lemma {:induction false} LineSumIs(samples: seq<SampleRec>, i: nat, parts: seq<real>)
    requires |parts| == |samples| && forall k :: 0 <= k < |parts| ==> CountsFor(samples[k], i, parts[k])
    ensures LineSum(samples, i) == Sum(parts)
  {
    if samples != [] {
      var n := |samples| - 1;
      LineSumIs(samples[..n], i, parts[..n]);
      assert CountsFor(samples[n], i, parts[n]);
    }
  }

  /**
    Of a summary as it is written, aalcalc counts for the mean the positive mean and for every
    sample its positive loss, with or without the zeros.
  */
  lemma {:induction false} EmittedLineSum(ssl: seq<real>, zerooutput: bool, n: nat, i: nat)
    requires n <= |ssl|
    ensures var k := if i == 0 then 1 else i + 2;
            LineSum(Emitted(ssl, zerooutput, n), i) == if k < n && ssl[k] > 0.0 then ssl[k] else 0.0
  {
    if n > 0 {
      EmittedLineSum(ssl, zerooutput, n - 1, i);
      var before := Emitted(ssl, zerooutput, n - 1);
      assert before + [] == before;
      var r := SampleRec(n - 3, ssl[n - 1]);
      assert (before + [r])[..|before|] == before;
    }
  }

  ghost predicate LineCounts(l: Line, s: nat, p: nat, i: nat, part: real) {
    part == if l.summary_id == s && l.period_no == p then LineSum(l.samples, i) else 0.0
  }

  /** A cell is the sum over the lines of its summary and period. */
  lemma {:induction false} CellSumIs(lines: seq<Line>, s: nat, p: nat, i: nat, parts: seq<real>)
    requires |parts| == |lines| && forall k :: 0 <= k < |parts| ==> LineCounts(lines[k], s, p, i, parts[k])
    ensures CellSum(lines, s, p, i) == Sum(parts)
  {
    if lines != [] {
      var n := |lines| - 1;
      CellSumIs(lines[..n], s, p, i, parts[..n]);
      assert LineCounts(lines[n], s, p, i, parts[n]);
    }
  }

  /** The cells of a period, for the samples from lo on. */
  ghost predicate PeriodCells(lines: seq<Line>, s: nat, p: nat, lo: nat, n: nat, row: seq<real>) {
    |row| == n && forall i :: 0 <= i < n ==> row[i] == CellSum(lines, s, p, lo + i)
  }

  /** The total of a summary is over all its periods and samples, and so is that of the squares. */
  lemma {:induction false} TotalsAre(lines: seq<Line>, s: nat, periods: nat, lo: nat, n: nat, rows: seq<seq<real>>,
                                     means: seq<real>, squares: seq<real>)
    requires |rows| == |means| == |squares| == periods
    requires forall p: nat :: p < periods ==> PeriodCells(lines, s, p + 1, lo, n, rows[p])
    requires forall p: nat :: p < periods ==> means[p] == Sum(rows[p]) && squares[p] == Sum(Squares(rows[p]))
    ensures Mean(lines, s, periods, lo, n) == Sum(means) && MeanSquared(lines, s, periods, lo, n) == Sum(squares)
  {
    if periods > 0 {
      var m := periods - 1;
      TotalsAre(lines, s, m, lo, n, rows[..m], means[..m], squares[..m]);
      CellsSplit(lines, s, periods, lo, n);
      assert PeriodCells(lines, s, m + 1, lo, n, rows[m]);
      assert rows[m] == Row(lines, s, periods, lo, n);
    } else {
      assert Squares([]) == [];
    }
  }

  // ---------- from the streams ----------

  /** A loss counts once for every time its event occurs in the period. */
  lemma {:induction false} OnceForEveryOccurrence(periods: seq<int>, p: int, x: real)
    ensures PeriodsSum(periods, p, x) == Times(multiset(periods)[p] as real, x)
  {
    TimesZero(x);
    if periods != [] {
      var n := |periods| - 1;
      OnceForEveryOccurrence(periods[..n], p, x);
      assert periods == periods[..n] + [periods[n]];
      TimesAdds(multiset(periods[..n])[p] as real, 1.0, x);
      TimesOne(x);
      assert multiset(periods)[p] == multiset(periods[..n])[p] + if periods[n] == p then 1 else 0;
    }
  }

  /** What a block counts for in a cell. */
  ghost predicate BlockCounts(b: Block, etp: EventPeriods, s: int, p: int, i: nat, part: real) {
    part == if b.summary_id == s && b.event_id in etp
            then Times(multiset(etp[b.event_id])[p] as real, LineSum(b.recs, i)) else 0.0
  }

  lemma {:induction false} BlocksSumIs(blocks: seq<Block>, k: nat, etp: EventPeriods, s: int, p: int, i: nat,
                                       parts: seq<real>)
    requires k <= |blocks| == |parts|
    requires forall m :: 0 <= m < |parts| ==> BlockCounts(blocks[m], etp, s, p, i, parts[m])
    ensures BlocksSum(blocks, k, etp, s, p, i) == Sum(parts) - Sum(parts[..k])
    decreases |blocks| - k
  {
    if k < |blocks| {
      BlocksSumIs(blocks, k + 1, etp, s, p, i, parts);
      assert parts[..k + 1][..k] == parts[..k];
      assert BlockCounts(blocks[k], etp, s, p, i, parts[k]);
      if blocks[k].event_id in etp { OnceForEveryOccurrence(etp[blocks[k].event_id], p, LineSum(blocks[k].recs, i)); }
    } else {
      assert parts[..k] == parts;
    }
  }

  ghost predicate StreamCounts(blocks: seq<Block>, etp: EventPeriods, s: int, p: int, i: nat, parts: seq<real>,
                               total: real) {
    && |parts| == |blocks| && total == Sum(parts)
    && forall m :: 0 <= m < |parts| ==> BlockCounts(blocks[m], etp, s, p, i, parts[m])
  }

  /** A cell of the walk adds up what all blocks of all streams count for in it. */
  lemma {:induction false} WrittenSumIs(blocks: seq<seq<Block>>, n: nat, etp: EventPeriods, s: int, p: int, i: nat,
                                        parts: seq<seq<real>>, totals: seq<real>)
    requires n <= |blocks| && |parts| == |totals| == n
    requires forall f: nat :: f < n ==> StreamCounts(blocks[f], etp, s, p, i, parts[f], totals[f])
    ensures WrittenSum(blocks, n, etp, s, p, i) == Sum(totals)
  {
    if n > 0 {
      WrittenSumIs(blocks, n - 1, etp, s, p, i, parts[..n - 1], totals[..n - 1]);
      assert StreamCounts(blocks[n - 1], etp, s, p, i, parts[n - 1], totals[n - 1]);
      BlocksSumIs(blocks[n - 1], 0, etp, s, p, i, parts[n - 1]);
      assert parts[n - 1][..0] == [];
    }
  }
}
