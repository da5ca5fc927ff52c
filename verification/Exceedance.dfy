/**
  The unweighted exceedance probability table: losses are ranked, and the loss at a requested
  return period is interpolated between the two ranks around it.
*/
module Exceedance {
  import opened RealSums

  // ---------- ranks ----------

  /** The return period of the i-th largest loss. */
  function PeriodOf(maxPeriod: real, i: nat): real
    requires i >= 1
  {
    maxPeriod / i as real
  }

  lemma PeriodPositive(maxPeriod: real, i: nat)
    requires maxPeriod > 0.0 && i >= 1
    ensures PeriodOf(maxPeriod, i) > 0.0 && PeriodOf(maxPeriod, 1) == maxPeriod
  {}

  lemma PeriodDecreases(maxPeriod: real, i: nat, j: nat)
    requires maxPeriod > 0.0 && 1 <= i < j
    ensures PeriodOf(maxPeriod, j) < PeriodOf(maxPeriod, i)
  {
    var a, b := PeriodOf(maxPeriod, i), PeriodOf(maxPeriod, j);
    assert a * i as real == maxPeriod && b * j as real == maxPeriod;
    PeriodPositive(maxPeriod, j);
    Larger(a, b, i as real, j as real);
  }

  lemma Larger(a: real, b: real, i: real, j: real)
    requires a * i == b * j && b > 0.0 && 0.0 < i < j
    ensures b < a
  {
    Scale(a, b, i);
    StrictScale(i, j, b);
  }

  lemma Scale(a: real, b: real, c: real)
    requires c >= 0.0
    ensures a <= b ==> a * c <= b * c
  {}

  lemma StrictScale(a: real, b: real, c: real)
    requires a < b && c > 0.0
    ensures c * a < c * b
  {}

  /** Period p is at rank i: the i-th return period is the first not above it. */
  predicate AtRank(maxPeriod: real, p: real, i: nat) {
    i >= 1 && PeriodOf(maxPeriod, i) <= p && (i > 1 ==> p < PeriodOf(maxPeriod, i - 1))
  }

  lemma RankIsUnique(maxPeriod: real, p: real, i: nat, j: nat)
    requires maxPeriod > 0.0 && AtRank(maxPeriod, p, i) && AtRank(maxPeriod, p, j)
    ensures i == j
  {
    if i < j - 1 { PeriodDecreases(maxPeriod, i, j - 1); }
    if j < i - 1 { PeriodDecreases(maxPeriod, j, i - 1); }
  }

  /** The rank of a positive period: the quotient, rounded up. */
  function Rank(maxPeriod: real, p: real): (i: nat)
    requires maxPeriod > 0.0 && p > 0.0
    ensures AtRank(maxPeriod, p, i)
  {
    var q := maxPeriod / p;
    var i := if q.Floor as real == q then q.Floor else q.Floor + 1;
    RankFits(maxPeriod, p, q, i);
    i
  }

  lemma RankFits(maxPeriod: real, p: real, q: real, i: int)
    requires maxPeriod > 0.0 && p > 0.0 && q == maxPeriod / p
    requires i == if q.Floor as real == q then q.Floor else q.Floor + 1
    ensures i >= 1 && AtRank(maxPeriod, p, i)
  {
    assert q > 0.0 && q * p == maxPeriod;
    assert i as real >= q && (i - 1) as real < q;
    assert i >= 1;
    QuotientAtMost(maxPeriod, i as real, p, q);
    if i > 1 { QuotientAbove(maxPeriod, (i - 1) as real, p, q); }
  }

  lemma QuotientAtMost(m: real, i: real, p: real, q: real)
    requires m == q * p && p > 0.0 && i >= q && i > 0.0
    ensures m / i <= p
  {
    Scale(q, i, p);
    assert (m / i) * i == m;
    if m / i > p { StrictScale(p, m / i, i); }
  }

  lemma QuotientAbove(m: real, i: real, p: real, q: real)
    requires m == q * p && p > 0.0 && 0.0 < i < q
    ensures p < m / i
  {
    StrictScale(i, q, p);
    assert (m / i) * i == m;
    if m / i <= p { Scale(m / i, p, i); }
  }

  // ---------- the curve ----------

  ghost predicate Descending(l: seq<real>) { forall i, j :: 0 <= i < j < |l| ==> l[i] >= l[j] }

  /** The i-th largest loss; nothing beyond the last. */
  function LossAt(l: seq<real>, i: nat): real { if 1 <= i <= |l| then l[i - 1] else 0.0 }

  /** How far x is from one end of an interval to the other. */
  function Fraction(x: real, from_x: real, to_x: real): real
    requires from_x != to_x
  {
    (x - to_x) / (from_x - to_x)
  }

  function LinearInterpolate(from_x: real, from_y: real, to_x: real, to_y: real, xpos: real): real
    requires from_x != to_x
  {
    ((xpos - to_x) * (from_y - to_y) / (from_x - to_x)) + to_y
  }

  /** A point on the line between the two. */
  lemma Interpolates(from_x: real, from_y: real, to_x: real, to_y: real, xpos: real)
    requires from_x != to_x
    ensures LinearInterpolate(from_x, from_y, to_x, to_y, xpos)
            == to_y + Times(Fraction(xpos, from_x, to_x), from_y - to_y)
  {}

  /** -1 stands for the case that should not happen. */
  function GetLoss(next_rp: real, last_rp: real, last_loss: real, current_rp: real, current_loss: real): real {
    if current_rp == 0.0 then 0.0
    else if current_loss == 0.0 then 0.0
    else if current_rp == next_rp then current_loss
    else if current_rp < next_rp && last_rp != current_rp then
      LinearInterpolate(last_rp, last_loss, current_rp, current_loss, next_rp)
    else -1.0
  }

  /**
    The loss at a return period of at most maxPeriod, from the ranked losses alone: exact at
    a rank, on the line between ranks, nothing once the losses have run out.
  */
  function CurveAt(maxPeriod: real, l: seq<real>, p: real): real
    requires maxPeriod > 0.0
  {
    if p <= 0.0 then 0.0
    else
      var i := Rank(maxPeriod, p);
      if LossAt(l, i) == 0.0 then 0.0
      else if i == 1 then LossAt(l, 1)
      else
        var share := Fraction(p, PeriodOf(maxPeriod, i - 1), PeriodOf(maxPeriod, i));
        LossAt(l, i) + Times(share, LossAt(l, i - 1) - LossAt(l, i))
  }

  /** What the writer reads off is the curve. */
  lemma GetLossIsCurve(maxPeriod: real, l: seq<real>, p: real, i: nat)
    requires maxPeriod > 0.0 && 0.0 < p <= maxPeriod && AtRank(maxPeriod, p, i)
    ensures var last_rp, last_loss := if i > 1 then PeriodOf(maxPeriod, i - 1) else 0.0, LossAt(l, i - 1);
            GetLoss(p, last_rp, last_loss, PeriodOf(maxPeriod, i), LossAt(l, i)) == CurveAt(maxPeriod, l, p)
  {
    RankIsUnique(maxPeriod, p, i, Rank(maxPeriod, p));
    PeriodPositive(maxPeriod, i);
    var rp := PeriodOf(maxPeriod, i);
    if i > 1 {
      PeriodDecreases(maxPeriod, i - 1, i);
      Interpolates(PeriodOf(maxPeriod, i - 1), LossAt(l, i - 1), rp, LossAt(l, i), p);
      if p == rp { NoShare(rp, PeriodOf(maxPeriod, i - 1), LossAt(l, i - 1) - LossAt(l, i)); }
    }
  }

  lemma NoShare(to_x: real, from_x: real, d: real)
    requires from_x != to_x
    ensures Times(Fraction(to_x, from_x, to_x), d) == 0.0
  {}

  // ---------- what the curve is between the ranks ----------

  /** The curve passes through every loss at the return period of its rank. */
  lemma CurveAtKnot(maxPeriod: real, l: seq<real>, i: nat)
    requires maxPeriod > 0.0 && i >= 1
    ensures CurveAt(maxPeriod, l, maxPeriod / i as real) == if i <= |l| then l[i - 1] else 0.0
  {
    var p := PeriodOf(maxPeriod, i);
    PeriodPositive(maxPeriod, i);
    if i > 1 { PeriodDecreases(maxPeriod, i - 1, i); }
    RankIsUnique(maxPeriod, p, i, Rank(maxPeriod, p));
    if i > 1 { NoShare(p, PeriodOf(maxPeriod, i - 1), LossAt(l, i - 1) - LossAt(l, i)); }
  }

  /** Between two ranks it is the straight line from the one loss to the other. */
  lemma CurveIsLinear(maxPeriod: real, l: seq<real>, p: real, i: nat)
    requires maxPeriod > 0.0 && 2 <= i <= |l| && l[i - 1] != 0.0
    requires maxPeriod / i as real <= p <= maxPeriod / (i - 1) as real
    ensures (CurveAt(maxPeriod, l, p) - l[i - 1]) * (maxPeriod / (i - 1) as real - maxPeriod / i as real)
            == (p - maxPeriod / i as real) * (l[i - 2] - l[i - 1])
  {
    CurveBetween(maxPeriod, l, p, i);
    OnTheLine(CurveAt(maxPeriod, l, p), p, PeriodOf(maxPeriod, i - 1), PeriodOf(maxPeriod, i), l[i - 2], l[i - 1]);
  }

  lemma CurveBetween(maxPeriod: real, l: seq<real>, p: real, i: nat)
    requires maxPeriod > 0.0 && 2 <= i <= |l| && l[i - 1] != 0.0
    requires PeriodOf(maxPeriod, i) <= p <= PeriodOf(maxPeriod, i - 1)
    ensures PeriodOf(maxPeriod, i) < PeriodOf(maxPeriod, i - 1)
    ensures var share := Fraction(p, PeriodOf(maxPeriod, i - 1), PeriodOf(maxPeriod, i));
            CurveAt(maxPeriod, l, p) == l[i - 1] + Times(share, l[i - 2] - l[i - 1])
  {
    PeriodPositive(maxPeriod, i);
    PeriodDecreases(maxPeriod, i - 1, i);
    if p == PeriodOf(maxPeriod, i - 1) {
      CurveAtKnot(maxPeriod, l, i - 1);
      WholeShare(p, PeriodOf(maxPeriod, i), l[i - 2] - l[i - 1]);
    } else {
      RankIsUnique(maxPeriod, p, i, Rank(maxPeriod, p));
    }
  }

  lemma WholeShare(from_x: real, to_x: real, d: real)
    requires from_x != to_x
    ensures Times(Fraction(from_x, from_x, to_x), d) == d
  {}

  lemma OnTheLine(y: real, p: real, from_x: real, to_x: real, from_y: real, to_y: real)
    requires from_x != to_x && y == to_y + Times(Fraction(p, from_x, to_x), from_y - to_y)
    ensures (y - to_y) * (from_x - to_x) == (p - to_x) * (from_y - to_y)
  {
    var f := Fraction(p, from_x, to_x);
    assert f * (from_x - to_x) == p - to_x;
    assert (y - to_y) * (from_x - to_x) == (f * (from_x - to_x)) * (from_y - to_y);
  }

  /** Where the losses have run out, and at return period 0, there is nothing. */
  lemma CurveRunsOut(maxPeriod: real, l: seq<real>, p: real, i: nat)
    requires maxPeriod > 0.0 && i >= 1
    requires p <= 0.0 || (maxPeriod / i as real <= p && (i > 1 ==> p < maxPeriod / (i - 1) as real)
                          && (i <= |l| ==> l[i - 1] == 0.0))
    ensures CurveAt(maxPeriod, l, p) == 0.0
  {
    if p > 0.0 { RankIsUnique(maxPeriod, p, i, Rank(maxPeriod, p)); }
  }

  // ---------- the table ----------

  datatype Row = Row(period: real, loss: real)

  /** The rows for the requested periods that are not above the maximum. */
  function Table(maxPeriod: real, l: seq<real>, periods: seq<real>): seq<Row>
    requires maxPeriod > 0.0
  {
    if periods == [] then []
    else
      var p := periods[|periods| - 1];
      Table(maxPeriod, l, periods[..|periods| - 1])
      + if p <= maxPeriod then [Row(p, CurveAt(maxPeriod, l, p))] else []
  }

  lemma TableSnoc(maxPeriod: real, l: seq<real>, periods: seq<real>, n: nat)
    requires maxPeriod > 0.0 && n < |periods|
    ensures Table(maxPeriod, l, periods[..n + 1])
            == Table(maxPeriod, l, periods[..n])
               + if periods[n] <= maxPeriod then [Row(periods[n], CurveAt(maxPeriod, l, periods[n]))] else []
  {
    assert periods[..n + 1][..n] == periods[..n];
  }

  /** The loop variables the writer carries from rank to rank. */
  datatype Cursor = Cursor(index: nat, last_rp: real, last_loss: real)

  /** Everything at or above the previous rank has been dealt with, and the last point is that rank's. */
  ghost predicate Reached(maxPeriod: real, l: seq<real>, periods: seq<real>, i: nat, c: Cursor)
    requires i >= 1
  {
    && c.index <= |periods|
    && (c.index < |periods| && i > 1 ==> periods[c.index] < PeriodOf(maxPeriod, i - 1)
                                         && c.last_rp == PeriodOf(maxPeriod, i - 1) && c.last_loss == LossAt(l, i - 1))
    && (i == 1 ==> c.last_rp == 0.0 && c.last_loss == 0.0)
  }

  /** WriteReturnPeriodOut at the rank whose return period is current_rp. */
  method WriteReturnPeriodOut(periods: seq<real>, c0: Cursor, current_rp: real, current_loss: real, maxPeriod: real,
                              out0: seq<Row>, ghost l: seq<real>, ghost i: nat)
      returns (c: Cursor, out: seq<Row>)
    requires maxPeriod > 0.0 && i >= 1 && Descending(periods) && Reached(maxPeriod, l, periods, i, c0)
    requires out0 == Table(maxPeriod, l, periods[..c0.index])
    requires (c0.index < |periods| && periods[c0.index] <= 0.0 && current_rp == 0.0)
             || (current_rp == PeriodOf(maxPeriod, i) && current_loss == LossAt(l, i))
    ensures c0.index <= c.index <= |periods| && out == Table(maxPeriod, l, periods[..c.index])
    ensures forall k :: c0.index <= k < c.index ==> periods[k] >= current_rp
    // at a negative period the writer leaves everything as it was
    ensures current_rp == 0.0 && c0.index < |periods| && periods[c0.index] < 0.0 ==> c == c0 && out == out0
    ensures current_rp > 0.0 ==> Reached(maxPeriod, l, periods, i + 1, c)
    ensures c.index < |periods| ==> periods[c.index] < current_rp
  {
    c, out := c0, out0;
    PeriodPositive(maxPeriod, i);
    if i > 1 { PeriodDecreases(maxPeriod, 1, i); }
    while true
      invariant c0.index <= c.index <= |periods| && c.last_rp == c0.last_rp && c.last_loss == c0.last_loss
      invariant out == Table(maxPeriod, l, periods[..c.index])
      invariant forall k :: c0.index <= k < c.index ==> periods[k] >= current_rp
      invariant c0.index < |periods| && current_rp > periods[c0.index] ==> c == c0 && out == out0
      decreases |periods| - c.index
    {
      if c.index >= |periods| { return; }
      var next := periods[c.index];
      if current_rp > next { break; }
      TableSnoc(maxPeriod, l, periods, c.index);
      if maxPeriod < next {
        c := c.(index := c.index + 1);
        continue;
      }
      var loss := GetLoss(next, c.last_rp, c.last_loss, current_rp, current_loss);
      RowIsRight(maxPeriod, l, periods, i, c0, c.index, current_rp, current_loss);
      out := out + [Row(next, loss)];
      c := c.(index := c.index + 1);
    }
    if current_rp > 0.0 {
      c := c.(last_rp := current_rp, last_loss := current_loss);
    }
  }

  lemma RowIsRight(maxPeriod: real, l: seq<real>, periods: seq<real>, i: nat, c: Cursor, k: nat, current_rp: real,
                   current_loss: real)
    requires maxPeriod > 0.0 && i >= 1 && Descending(periods) && Reached(maxPeriod, l, periods, i, c)
    requires c.index <= k < |periods| && current_rp <= periods[k] <= maxPeriod
    requires (periods[c.index] <= 0.0 && current_rp == 0.0)
             || (current_rp == PeriodOf(maxPeriod, i) && current_loss == LossAt(l, i))
    ensures GetLoss(periods[k], c.last_rp, c.last_loss, current_rp, current_loss) == CurveAt(maxPeriod, l, periods[k])
  {
    var p := periods[k];
    assert p <= periods[c.index];
    PeriodPositive(maxPeriod, i);
    if current_rp != 0.0 { GetLossIsCurve(maxPeriod, l, p, i); }
  }

  // ---------- sorting ----------

  function InsertDescending(x: real, l: seq<real>): seq<real> {
    if l == [] || x >= l[0] then [x] + l else [l[0]] + InsertDescending(x, l[1..])
  }

  /** std::sort over the reversed range. */
  function SortDescending(s: seq<real>): seq<real> {
    if s == [] then [] else InsertDescending(s[0], SortDescending(s[1..]))
  }

  lemma {:induction false} InsertDescends(x: real, l: seq<real>)
    requires Descending(l)
    ensures Descending(InsertDescending(x, l))
    ensures InsertDescending(x, l) != [] && InsertDescending(x, l)[0] == if l == [] || x >= l[0] then x else l[0]
  {
    if l != [] && x < l[0] {
      InsertDescends(x, l[1..]);
      ConsDescends(l[0], InsertDescending(x, l[1..]));
    } else {
      if l != [] { ConsDescends(x, l); }
    }
  }

  lemma ConsDescends(x: real, l: seq<real>)
    requires Descending(l) && l != [] && x >= l[0]
    ensures Descending([x] + l)
  {}

  lemma {:induction false} InsertKeeps(x: real, l: seq<real>)
    ensures multiset(InsertDescending(x, l)) == multiset(l) + multiset{x}
  {
    if l != [] && x < l[0] {
      InsertKeeps(x, l[1..]);
      assert l == [l[0]] + l[1..];
    }
  }

  lemma {:induction false} SortSorts(s: seq<real>)
    ensures Descending(SortDescending(s)) && multiset(SortDescending(s)) == multiset(s)
    ensures |SortDescending(s)| == |s|
  {
    if s != [] {
      SortSorts(s[1..]);
      InsertDescends(s[0], SortDescending(s[1..]));
      InsertKeeps(s[0], SortDescending(s[1..]));
      assert s == [s[0]] + s[1..];
      assert |multiset(SortDescending(s))| == |multiset(s)|;
    }
  }

  // ---------- one summary ----------

  /** Losses are averaged over the samples; the full uncertainty table has samplesize 1. */
  function PerSample(l: seq<real>, samplesize: nat): (r: seq<real>)
    requires samplesize > 0
    ensures |r| == |l| && forall i :: 0 <= i < |l| ==> r[i] == l[i] / samplesize as real
  {
    seq(|l|, i requires 0 <= i < |l| => l[i] / samplesize as real)
  }

  /** The losses of all samples add up to those of the whole. */
  lemma PerSampleTotal(l: seq<real>, samplesize: nat)
    requires samplesize > 0
    ensures Times(Sum(PerSample(l, samplesize)), samplesize as real) == Sum(l)
  {
    SumScale(PerSample(l, samplesize), l, samplesize as real);
  }

  lemma RankAhead(maxPeriod: real, p: real, i: nat)
    requires maxPeriod > 0.0 && 0.0 < p && i >= 1 && (i > 1 ==> p < PeriodOf(maxPeriod, i - 1))
    ensures Rank(maxPeriod, p) >= i
  {
    var r := Rank(maxPeriod, p);
    if r < i - 1 { PeriodDecreases(maxPeriod, r, i - 1); }
  }

  /** How many more ranks until the next period is met. */
  function Ahead(maxPeriod: real, periods: seq<real>, index: nat, i: nat): int
    requires maxPeriod > 0.0
  {
    if index < |periods| && periods[index] > 0.0 then Rank(maxPeriod, periods[index]) - i else 0
  }

  /** One turn of the loop past the last loss: return period 0 takes all that is left. */
  method WriteTail(periods: seq<real>, c0: Cursor, maxPeriod: real, out0: seq<Row>, ghost l: seq<real>, i: nat)
      returns (c: Cursor, out: seq<Row>)
    requires maxPeriod > 0.0 && i > |l| && Descending(periods)
    requires c0.index < |periods| ==> periods[c0.index] >= 0.0
    requires Reached(maxPeriod, l, periods, i, c0) && out0 == Table(maxPeriod, l, periods[..c0.index])
    ensures c0.index <= c.index <= |periods| && out == Table(maxPeriod, l, periods[..c.index])
    ensures forall k :: c0.index <= k < c.index ==> periods[k] >= 0.0
    ensures c.index < |periods| && periods[c.index] >= 0.0 ==> Reached(maxPeriod, l, periods, i + 1, c)
    ensures c.index == c0.index < |periods| ==>
              0 <= Ahead(maxPeriod, periods, c.index, i + 1) < Ahead(maxPeriod, periods, c0.index, i)
  {
    var retperiod := PeriodOf(maxPeriod, i);
    PeriodPositive(maxPeriod, i);
    if c0.index < |periods| && periods[c0.index] <= 0.0 { retperiod := 0.0; }
    c, out := WriteReturnPeriodOut(periods, c0, retperiod, 0.0, maxPeriod, out0, l, i);
    if c.index == c0.index < |periods| { RankAhead(maxPeriod, periods[c.index], i + 1); }
  }

  /** The periods before this one are met; a negative one never is. */
  ghost predicate Met(periods: seq<real>, n: nat) {
    n <= |periods| && NonNegative(periods[..n]) && (n < |periods| ==> periods[n] < 0.0)
  }

  /**
    The table of one summary with requested return periods: every period not above the
    maximum exactly once, in order, with the loss on the curve of the ranked losses. At a
    negative period the loop of the program makes no more progress and does not end; met is
    where that is, and all periods if there is none.
  */
  method WriteReturnPeriods(losses: seq<real>, periods: seq<real>, maxPeriod: real, samplesize: nat)
      returns (out: seq<Row>, met: nat)
    requires maxPeriod > 0.0 && samplesize > 0 && Descending(periods)
    ensures Met(periods, met) && out == Table(maxPeriod, PerSample(SortDescending(losses), samplesize), periods[..met])
  {
    var lpv := SortDescending(losses);
    ghost var l := PerSample(lpv, samplesize);
    var c := Cursor(0, 0.0, 0.0);
    var i := 1;
    out := [];
    while i <= |lpv|
      invariant 1 <= i <= |lpv| + 1 && |lpv| == |l|
      invariant Reached(maxPeriod, l, periods, i, c) && out == Table(maxPeriod, l, periods[..c.index])
      invariant forall k :: 0 <= k < c.index ==> periods[k] >= 0.0
    {
      var retperiod := PeriodOf(maxPeriod, i);
      PeriodPositive(maxPeriod, i);
      c, out := WriteReturnPeriodOut(periods, c, retperiod, lpv[i - 1] / samplesize as real, maxPeriod, out, l, i);
      i := i + 1;
    }
    while true
      invariant i > |l| && c.index <= |periods|
      invariant (c.index < |periods| && periods[c.index] >= 0.0) || i == |l| + 1 ==>
                  Reached(maxPeriod, l, periods, i, c)
      invariant out == Table(maxPeriod, l, periods[..c.index])
      invariant forall k :: 0 <= k < c.index ==> periods[k] >= 0.0
      decreases |periods| - c.index, Ahead(maxPeriod, periods, c.index, i)
    {
      if c.index < |periods| && periods[c.index] < 0.0 { break; }
      c, out := WriteTail(periods, c, maxPeriod, out, l, i);
      i := i + 1;
      if c.index >= |periods| { break; }
    }
    met := c.index;
  }

  /** Without requested periods every rank is written, with the mean of the losses down to it. */
  datatype RankRow = RankRow(period: real, loss: real, tvar: real)

  function MeanOf(sum: real, n: nat): real
    requires n >= 1
  {
    sum / n as real
  }

  method WriteRanks(losses: seq<real>, maxPeriod: real, samplesize: nat) returns (out: seq<RankRow>)
    requires maxPeriod > 0.0 && samplesize > 0
    ensures var l := PerSample(SortDescending(losses), samplesize);
            |out| == |l| && forall i: nat :: 1 <= i <= |l| ==>
              out[i - 1] == RankRow(PeriodOf(maxPeriod, i), l[i - 1], MeanOf(Sum(l[..i]), i))
  {
    var lpv := SortDescending(losses);
    ghost var l := PerSample(lpv, samplesize);
    var tvar := 0.0;
    out := [];
    var i := 1;
    while i <= |lpv|
      invariant 1 <= i <= |lpv| + 1 && |lpv| == |l| && |out| == i - 1
      invariant tvar == if i > 1 then MeanOf(Sum(l[..i - 1]), i - 1) else 0.0
      invariant forall k: nat :: 1 <= k < i ==>
                  out[k - 1] == RankRow(PeriodOf(maxPeriod, k), l[k - 1], MeanOf(Sum(l[..k]), k))
    {
      var loss := lpv[i - 1] / samplesize as real;
      SumSnoc(l[..i - 1], l[i - 1]);
      assert l[..i] == l[..i - 1] + [l[i - 1]];
      tvar := NextMean(Sum(l[..i - 1]), i, loss, tvar);
      out := out + [RankRow(PeriodOf(maxPeriod, i), loss, tvar)];
      i := i + 1;
    }
  }

  /** The running mean takes in one more loss. */
  method NextMean(ghost sum: real, i: nat, loss: real, mean: real) returns (tvar: real)
    requires i >= 1 && mean == (if i > 1 then MeanOf(sum, i - 1) else 0.0) && (i == 1 ==> sum == 0.0)
    ensures tvar == MeanOf(sum + loss, i)
  {
    tvar := mean - ((mean - loss) / i as real);
    ghost var n := i as real;
    assert i > 1 ==> mean * (n - 1.0) == sum;
    assert tvar * n == mean * n - (mean - loss);
    assert mean * n == mean * (n - 1.0) + mean;
  }

  // ---------- the shape of the curve ----------

  lemma Divides(x: real, w: real, f: real)
    requires w > 0.0 && f == x / w
    ensures f * w == x
  {}

  lemma SignOfFactor(f: real, w: real)
    requires w > 0.0
    ensures f * w >= 0.0 ==> f >= 0.0
  {
    if f < 0.0 { StrictScale(f, 0.0, w); }
  }

  lemma FractionBounds(p: real, from_x: real, to_x: real)
    requires to_x <= p <= from_x && to_x < from_x
    ensures 0.0 <= Fraction(p, from_x, to_x) <= 1.0
  {
    var f, w := Fraction(p, from_x, to_x), from_x - to_x;
    Divides(p - to_x, w, f);
    SignOfFactor(f, w);
    assert (1.0 - f) * w == w - f * w;
    SignOfFactor(1.0 - f, w);
  }

  lemma TimesBounds(f: real, d: real)
    requires 0.0 <= f <= 1.0 && d >= 0.0
    ensures 0.0 <= Times(f, d) <= d
  {
    Scale(0.0, f, d);
    Scale(f, 1.0, d);
  }

  /** A share of a drop: between nothing and the whole. */
  lemma ShareBounds(p: real, from_x: real, to_x: real, d: real)
    requires to_x <= p <= from_x && to_x < from_x && d >= 0.0
    ensures 0.0 <= Times(Fraction(p, from_x, to_x), d) <= d
  {
    FractionBounds(p, from_x, to_x);
    TimesBounds(Fraction(p, from_x, to_x), d);
  }

  /** The share grows with the period. */
  lemma ShareGrows(p: real, q: real, from_x: real, to_x: real, d: real)
    requires q <= p && to_x < from_x && d >= 0.0
    ensures Times(Fraction(q, from_x, to_x), d) <= Times(Fraction(p, from_x, to_x), d)
  {
    var f, g, w := Fraction(p, from_x, to_x), Fraction(q, from_x, to_x), from_x - to_x;
    Divides(p - to_x, w, f);
    Divides(q - to_x, w, g);
    assert (f - g) * w == f * w - g * w;
    SignOfFactor(f - g, w);
    Scale(g, f, d);
  }

  /** At a rank the curve lies between that rank's loss and the one before. */
  lemma CurveAtRank(maxPeriod: real, l: seq<real>, p: real)
    requires maxPeriod > 0.0 && 0.0 < p <= maxPeriod && Descending(l) && NonNegative(l)
    ensures var i := Rank(maxPeriod, p);
            LossAt(l, i) <= CurveAt(maxPeriod, l, p) && (i > 1 ==> CurveAt(maxPeriod, l, p) <= LossAt(l, i - 1))
            && (i == 1 ==> CurveAt(maxPeriod, l, p) == LossAt(l, 1))
  {
    var i := Rank(maxPeriod, p);
    if i > 1 {
      PeriodDecreases(maxPeriod, i - 1, i);
      ShareBounds(p, PeriodOf(maxPeriod, i - 1), PeriodOf(maxPeriod, i), LossAt(l, i - 1) - LossAt(l, i));
    }
  }

  lemma RanksOrdered(maxPeriod: real, p: real, q: real)
    requires maxPeriod > 0.0 && 0.0 < q <= p
    ensures Rank(maxPeriod, p) <= Rank(maxPeriod, q)
  {
    var i, j := Rank(maxPeriod, p), Rank(maxPeriod, q);
    if j < i - 1 { PeriodDecreases(maxPeriod, j, i - 1); }
  }

  /** The longer the return period, the larger the loss. */
  lemma CurveIsMonotone(maxPeriod: real, l: seq<real>, p: real, q: real)
    requires maxPeriod > 0.0 && q <= p <= maxPeriod && Descending(l) && NonNegative(l)
    ensures 0.0 <= CurveAt(maxPeriod, l, q) <= CurveAt(maxPeriod, l, p)
  {
    if q > 0.0 {
      var i, j := Rank(maxPeriod, p), Rank(maxPeriod, q);
      RanksOrdered(maxPeriod, p, q);
      CurveAtRank(maxPeriod, l, p);
      CurveAtRank(maxPeriod, l, q);
      if i == j && i > 1 {
        PeriodDecreases(maxPeriod, i - 1, i);
        ShareGrows(p, q, PeriodOf(maxPeriod, i - 1), PeriodOf(maxPeriod, i), LossAt(l, i - 1) - LossAt(l, i));
      }
    } else if p > 0.0 {
      CurveAtRank(maxPeriod, l, p);
    }
  }

  /** Every row is a requested period that is not above the maximum, with its loss. */
  lemma {:induction false} TableRows(maxPeriod: real, l: seq<real>, periods: seq<real>, a: nat)
    requires maxPeriod > 0.0 && a < |Table(maxPeriod, l, periods)|
    ensures var r := Table(maxPeriod, l, periods)[a];
            r.period in periods && r.period <= maxPeriod && r.loss == CurveAt(maxPeriod, l, r.period)
  {
    var n := |periods| - 1;
    if a < |Table(maxPeriod, l, periods[..n])| { TableRows(maxPeriod, l, periods[..n], a); }
  }

  /** The periods of the table are in the order requested. */
  lemma {:induction false} TableOrdered(maxPeriod: real, l: seq<real>, periods: seq<real>, a: nat, b: nat)
    requires maxPeriod > 0.0 && Descending(periods) && a < b < |Table(maxPeriod, l, periods)|
    ensures Table(maxPeriod, l, periods)[a].period >= Table(maxPeriod, l, periods)[b].period
  {
    var n := |periods| - 1;
    var before := Table(maxPeriod, l, periods[..n]);
    if b < |before| {
      TableOrdered(maxPeriod, l, periods[..n], a, b);
    } else {
      TableRows(maxPeriod, l, periods[..n], a);
    }
  }

  /** The table has a row for every requested period from the first one on that is not above the maximum. */
  lemma {:induction false} TableIsTail(maxPeriod: real, l: seq<real>, periods: seq<real>)
    requires maxPeriod > 0.0 && Descending(periods)
    ensures var t := Table(maxPeriod, l, periods);
            var above := |periods| - |t|;
            above >= 0 && (forall k :: 0 <= k < above ==> periods[k] > maxPeriod)
            && forall a :: 0 <= a < |t| ==> t[a].period == periods[above + a] <= maxPeriod
  {
    if periods != [] { TableIsTail(maxPeriod, l, periods[..|periods| - 1]); }
  }

  /** The losses written never increase down the table. */
  lemma TableDescends(maxPeriod: real, l: seq<real>, periods: seq<real>, a: nat, b: nat)
    requires maxPeriod > 0.0 && Descending(periods) && Descending(l) && NonNegative(l)
    requires a < b < |Table(maxPeriod, l, periods)|
    ensures Table(maxPeriod, l, periods)[a].loss >= Table(maxPeriod, l, periods)[b].loss
  {
    var t := Table(maxPeriod, l, periods);
    TableOrdered(maxPeriod, l, periods, a, b);
    TableRows(maxPeriod, l, periods, a);
    TableRows(maxPeriod, l, periods, b);
    CurveIsMonotone(maxPeriod, l, t[a].period, t[b].period);
  }

  /** A curve over losses that are nowhere smaller is nowhere lower. */
  lemma CurveDominates(maxPeriod: real, l: seq<real>, m: seq<real>, p: real)
    requires maxPeriod > 0.0 && p <= maxPeriod && |l| == |m| && Descending(l) && Descending(m)
    requires NonNegative(m) && forall i :: 0 <= i < |l| ==> l[i] >= m[i]
    ensures CurveAt(maxPeriod, l, p) >= CurveAt(maxPeriod, m, p)
  {
    if p > 0.0 {
      var i := Rank(maxPeriod, p);
      if LossAt(m, i) == 0.0 {
        CurveAtRank(maxPeriod, l, p);
      } else if i > 1 {
        PeriodDecreases(maxPeriod, i - 1, i);
        LineDominates(p, PeriodOf(maxPeriod, i - 1), PeriodOf(maxPeriod, i),
                      LossAt(l, i - 1), LossAt(l, i), LossAt(m, i - 1), LossAt(m, i));
      }
    }
  }

  lemma LineDominates(p: real, from_x: real, to_x: real, a: real, b: real, c: real, d: real)
    requires to_x <= p <= from_x && to_x < from_x && a >= c && b >= d
    ensures b + Times(Fraction(p, from_x, to_x), a - b) >= d + Times(Fraction(p, from_x, to_x), c - d)
  {
    var f := Fraction(p, from_x, to_x);
    FractionBounds(p, from_x, to_x);
    MixDominates(f, a, b, c, d);
  }

  lemma MixDominates(f: real, a: real, b: real, c: real, d: real)
    requires 0.0 <= f <= 1.0 && a >= c && b >= d
    ensures b + Times(f, a - b) >= d + Times(f, c - d)
  {
    MixIs(f, 1.0 - f, a, b);
    MixIs(f, 1.0 - f, c, d);
    TimesMonotone(c, a, f);
    TimesMonotone(d, b, 1.0 - f);
  }

  lemma MixIs(f: real, g: real, a: real, b: real)
    requires f + g == 1.0
    ensures b + Times(f, a - b) == Times(a, f) + Times(b, g)
  {
    assert b * g == b - b * f;
  }

  lemma TimesMonotone(a: real, b: real, c: real)
    requires a <= b && c >= 0.0
    ensures Times(a, c) <= Times(b, c)
  {}
}
