/**
  eve: the three ways a list of events is shared out between processes. Process numbers
  run from 1 to total.
*/
module EventPartition {
  import opened NumberTheory

  // ---------- blocks ----------

  function Min(a: int, b: int): int { if a < b then a else b }
  function Max(a: int, b: int): int { if a < b then b else a }

  /** First position of process pno's block; the block ends where the next one starts. */
  function ChunkStart(pno: int, total: int, events: nat): int
    requires total > 0
  {
    var minChunksize := events / total;
    var firstMinPno := events % total + 1;
    (minChunksize + 1) * (Min(firstMinPno, pno) - 1) + minChunksize * Max(pno - firstMinPno, 0)
  }

  /** Every earlier process takes the quotient, and the first ones take one of the remainder each. */
  lemma ChunkStartIs(pno: int, total: int, events: nat)
    requires 1 <= pno && total > 0
    ensures ChunkStart(pno, total, events) == events / total * (pno - 1) + Min(pno - 1, events % total)
  {
    var m, f := events / total, events % total + 1;
    Distribute(m, 1, Min(f, pno) - 1);
    if pno > f { Distribute(f - 1, pno - f, m); }
  }

  lemma ChunkBounds(pno: int, total: int, events: nat)
    requires 1 <= pno <= total
    ensures 0 <= ChunkStart(pno, total, events) <= ChunkStart(pno + 1, total, events) <= events
    ensures ChunkStart(pno + 1, total, events) - ChunkStart(pno, total, events)
            == events / total + if pno <= events % total then 1 else 0
  {
    var m, r := events / total, events % total;
    ChunkStartIs(pno, total, events);
    ChunkStartIs(pno + 1, total, events);
    ChunkArithmetic(m, r, pno, total, events);
  }

  lemma ChunkArithmetic(m: int, r: int, pno: int, total: int, events: int)
    requires m >= 0 && 0 <= r < total && 1 <= pno <= total && events == m * total + r
    ensures m * pno == m * (pno - 1) + m && 0 <= m * (pno - 1) && m * pno <= m * total
  {
    Distribute(pno - 1, 1, m);
    BoundedProduct(m, pno - 1, total);
    BoundedProduct(m, pno, total);
  }

  lemma BoundedProduct(m: int, x: int, y: int)
    requires m >= 0 && 0 <= x <= y
    ensures 0 <= m * x <= m * y
  {}

  lemma ChunkEnds(total: int, events: nat)
    requires total > 0
    ensures ChunkStart(1, total, events) == 0
    ensures ChunkStart(total + 1, total, events) == events
  {
    ChunkStartIs(1, total, events);
    ChunkStartIs(total + 1, total, events);
  }

  /** The block loop: emits the events of process pno's block, in input order. */
  method EmitEvents(pno: int, total: int, events: seq<int>) returns (out: seq<int>)
    requires 1 <= pno <= total
    ensures 0 <= ChunkStart(pno, total, |events|) <= ChunkStart(pno + 1, total, |events|) <= |events|
    ensures out == events[ChunkStart(pno, total, |events|)..ChunkStart(pno + 1, total, |events|)]
    ensures |out| == |events| / total + if pno <= |events| % total then 1 else 0
  {
    ChunkBounds(pno, total, |events|);
    out := EmitRange(events, ChunkStart(pno, total, |events|), ChunkStart(pno + 1, total, |events|));
  }

  method EmitRange(events: seq<int>, first: int, endPos: int) returns (out: seq<int>)
    requires 0 <= first <= endPos <= |events|
    ensures out == events[first..endPos]
  {
    var startPos := first;
    out := [];
    while startPos < endPos
      invariant first <= startPos <= endPos
      invariant out == events[first..startPos]
    {
      out := out + [events[startPos]];
      startPos := startPos + 1;
    }
  }

  /** What processes 1 to k emit in blocks, one after the other. */
  function Blocks(events: seq<int>, total: int, k: nat): seq<int>
    requires k <= total && total > 0
  {
    if k == 0 then [] else
      ChunkBounds(k, total, |events|);
      Blocks(events, total, k - 1)
      + events[ChunkStart(k, total, |events|)..ChunkStart(k + 1, total, |events|)]
  }

  lemma {:induction false} BlocksPrefix(events: seq<int>, total: int, k: nat, e: int)
    requires k <= total && total > 0 && e == ChunkStart(k + 1, total, |events|)
    ensures 0 <= e <= |events| && Blocks(events, total, k) == events[..e]
  {
    if k == 0 {
      ChunkEnds(total, |events|);
    } else {
      ChunkBounds(k, total, |events|);
      var b := ChunkStart(k, total, |events|);
      BlocksPrefix(events, total, k - 1, b);
      assert events[..b] + events[b..e] == events[..e];
    }
  }

  /** The blocks of all processes concatenate to the input list. */
  lemma BlocksAreTheInput(events: seq<int>, total: int)
    requires total > 0
    ensures Blocks(events, total, total) == events
  {
    ChunkEnds(total, |events|);
    BlocksPrefix(events, total, total, |events|);
    assert events[..|events|] == events;
  }

  // ---------- dealing ----------

  /** The card counter's test: position and process differ by a multiple of total. */
  predicate FallsTo(counter: int, pno: int, total: int)
    requires total > 0
  {
    (counter - pno) % total == 0
  }

  /** The elements dealt to process pno: those whose one-based position differs from pno by a multiple of total. */
  function Dealt(events: seq<int>, pno: int, total: int): seq<int>
    requires total > 0
  {
    if events == [] then []
    else
      var front, last := events[..|events| - 1], events[|events| - 1];
      Dealt(front, pno, total) + if FallsTo(|events|, pno, total) then [last] else []
  }

  lemma DealtSnoc(events: seq<int>, x: int, pno: int, total: int)
    requires total > 0
    ensures Dealt(events + [x], pno, total)
            == Dealt(events, pno, total) + if FallsTo(|events| + 1, pno, total) then [x] else []
  {
    assert (events + [x])[..|events|] == events;
  }

  /** The dealing loop. */
  method DoShuffle(pno: int, total: int, events: seq<int>) returns (out: seq<int>)
    requires 1 <= pno <= total
    ensures out == Dealt(events, pno, total)
  {
    var counter := 1;
    out := [];
    for i := 0 to |events|
      invariant counter == i + 1
      invariant out == Dealt(events[..i], pno, total)
    {
      DealtSnoc(events[..i], events[i], pno, total);
      assert events[..i + 1] == events[..i] + [events[i]];
      if FallsTo(counter, pno, total) {
        out := out + [events[i]];
      }
      counter := counter + 1;
    }
    assert events[..|events|] == events;
  }

  /** The hands of processes 1 to total, each as a multiset. */
  function Hands(events: seq<int>, total: int): (hands: seq<multiset<int>>)
    requires total > 0
    ensures |hands| == total
  {
    seq(total, p => Hand(events, p, total))
  }

  /** What the process with index p, that is number p + 1, is dealt. */
  function Hand(events: seq<int>, p: int, total: int): multiset<int>
    requires total > 0
  {
    multiset(Dealt(events, p + 1, total))
  }

  function Together(hands: seq<multiset<int>>): multiset<int> {
    if hands == [] then multiset{} else Together(hands[..|hands| - 1]) + hands[|hands| - 1]
  }

  lemma {:induction false} TogetherUpdate(hands: seq<multiset<int>>, r: nat, c: multiset<int>)
    requires r < |hands|
    ensures Together(hands[r := hands[r] + c]) == Together(hands) + c
  {
    var n := |hands| - 1;
    var changed := hands[r := hands[r] + c];
    if r == n {
      assert changed[..n] == hands[..n];
    } else {
      TogetherUpdate(hands[..n], r, c);
      assert changed[..n] == hands[..n][r := hands[r] + c];
    }
  }

  /** One more event changes one hand. */
  lemma HandsSnoc(events: seq<int>, x: int, total: int, r: nat)
    requires r < total && r == |events| % total
    ensures Hands(events + [x], total) == Hands(events, total)[r := Hand(events, r, total) + multiset{x}]
  {
    forall p | 0 <= p < total
      ensures Hand(events + [x], p, total)
              == if p == r then Hand(events, p, total) + multiset{x} else Hand(events, p, total)
    {
      HandSnoc(events, x, p, total, r);
    }
  }

  lemma HandSnoc(events: seq<int>, x: int, p: int, total: int, r: nat)
    requires 0 <= p < total && r == |events| % total
    ensures Hand(events + [x], p, total)
            == if p == r then Hand(events, p, total) + multiset{x} else Hand(events, p, total)
  {
    DealtSnoc(events, x, p + 1, total);
    ResidueOnce(|events|, total, p + 1);
    Append(Dealt(events, p + 1, total), x);
  }

  lemma Append(d: seq<int>, x: int)
    ensures multiset(d + [x]) == multiset(d) + multiset{x}
    ensures d + [] == d
  {}

  lemma ResidueOnce(n: nat, total: int, k: int)
    requires 1 <= k <= total
    ensures FallsTo(n + 1, k, total) <==> n % total == k - 1
  {
    var q, r := n / total, n % total;
    var d := r - (k - 1);
    assert n + 1 - k == q * total + d;
    if d >= 0 {
      ModUnique(n + 1 - k, total, q, d);
    } else {
      assert (q - 1) * total == q * total - total;
      ModUnique(n + 1 - k, total, q - 1, d + total);
    }
  }

  /** Dealing gives every position to exactly one process: the hands together are the events. */
  lemma {:induction false} DealingPartitions(events: seq<int>, total: int)
    requires total > 0
    ensures Together(Hands(events, total)) == multiset(events)
  {
    if events == [] {
      NothingDealt(Hands(events, total));
    } else {
      var front, last := events[..|events| - 1], events[|events| - 1];
      assert events == front + [last];
      DealingPartitions(front, total);
      HandsSnoc(front, last, total, |front| % total);
      TogetherUpdate(Hands(front, total), |front| % total, multiset{last});
    }
  }

  lemma {:induction false} NothingDealt(hands: seq<multiset<int>>)
    requires forall p :: 0 <= p < |hands| ==> hands[p] == multiset{}
    ensures Together(hands) == multiset{}
  {
    if hands != [] { NothingDealt(hands[..|hands| - 1]); }
  }

  /** The ids 1 to n, the event list for which the dealing has a meaning in terms of ids. */
  function Ids(n: nat): seq<int> { seq(n, i => i + 1) }

  /** Of the ids 1 to n, process pno is dealt exactly those congruent to pno, in ascending order. */
  lemma {:induction false} DealtIds(n: nat, pno: int, total: int)
    requires 1 <= pno <= total
    ensures forall x :: x in Dealt(Ids(n), pno, total) <==> 1 <= x <= n && (x - pno) % total == 0
    ensures forall i, j :: 0 <= i < j < |Dealt(Ids(n), pno, total)| ==>
              Dealt(Ids(n), pno, total)[i] < Dealt(Ids(n), pno, total)[j]
  {
    if n > 0 {
      assert Ids(n) == Ids(n - 1) + [n];
      DealtSnoc(Ids(n - 1), n, pno, total);
      DealtIds(n - 1, pno, total);
      var d, e := Dealt(Ids(n - 1), pno, total), if FallsTo(n, pno, total) then [n] else [];
      assert Dealt(Ids(n), pno, total) == d + e;
      forall i, j | 0 <= i < j < |d + e| ensures (d + e)[i] < (d + e)[j] {
        if j == |d| { assert d[i] in d; }
      }
    }
  }

  // ---------- shuffling while dealing ----------

  /** Draw number i of the shuffle picks an offset from position i on. */
  ghost predicate DrawsFit(draws: seq<nat>, n: nat) {
    |draws| == n && forall i :: 0 <= i < n ==> draws[i] <= n - 1 - i
  }

  function Swap(s: seq<int>, i: nat, j: nat): (r: seq<int>)
    requires i < |s| && j < |s|
    ensures |r| == |s| && r[i] == s[j] && r[j] == s[i]
    ensures forall k :: 0 <= k < |s| && k != i && k != j ==> r[k] == s[k]
  {
    s[i := s[j]][j := s[i]]
  }

  /** The list after the swaps of positions 0 to k - 1. */
  function Shuffled(s: seq<int>, draws: seq<nat>, k: nat): (r: seq<int>)
    requires DrawsFit(draws, |s|) && k <= |s|
    ensures |r| == |s|
  {
    if k == 0 then s else Swap(Shuffled(s, draws, k - 1), k - 1, k - 1 + draws[k - 1])
  }

  lemma ShuffledStep(s: seq<int>, draws: seq<nat>, k: nat)
    requires DrawsFit(draws, |s|) && k < |s|
    ensures Shuffled(s, draws, k + 1) == Swap(Shuffled(s, draws, k), k, k + draws[k])
  {}

  lemma {:induction false} ShuffledPermutes(s: seq<int>, draws: seq<nat>, k: nat, t: seq<int>)
    requires DrawsFit(draws, |s|) && k <= |s| && t == Shuffled(s, draws, k)
    ensures multiset(t) == multiset(s)
  {
    if k > 0 {
      var before := Shuffled(s, draws, k - 1);
      ShuffledPermutes(s, draws, k - 1, before);
      SwapPermutes(before, k - 1, k - 1 + draws[k - 1], t);
    }
  }

  lemma SwapPermutes(s: seq<int>, i: nat, j: nat, t: seq<int>)
    requires i < |s| && j < |s| && t == Swap(s, i, j)
    ensures multiset(t) == multiset(s)
  {}

  /** A position is never touched again once the shuffle has passed it. */
  lemma {:induction false} PassedIsFinal(s: seq<int>, draws: seq<nat>, k: nat, m: nat)
    requires DrawsFit(draws, |s|) && k <= m <= |s|
    ensures Shuffled(s, draws, m)[..k] == Shuffled(s, draws, k)[..k]
  {
    if k < m { PassedIsFinal(s, draws, k, m - 1); }
  }

  /** What ends up at a position is what the draw picks out of the part not yet passed. */
  lemma DrawnIsFinal(s: seq<int>, draws: seq<nat>, k: nat)
    requires DrawsFit(draws, |s|) && k < |s|
    ensures Shuffled(s, draws, |s|)[k] == Shuffled(s, draws, k)[k + draws[k]]
  {
    PassedIsFinal(s, draws, k + 1, |s|);
    ShuffledStep(s, draws, k);
    assert Shuffled(s, draws, |s|)[k] == Shuffled(s, draws, |s|)[..k + 1][k];
    assert Shuffled(s, draws, k + 1)[k] == Shuffled(s, draws, k + 1)[..k + 1][k];
  }

  ghost predicate AllDifferent(s: seq<int>) { forall i, j :: 0 <= i < j < |s| ==> s[i] != s[j] }

  lemma {:induction false} ShuffledDiffers(s: seq<int>, draws: seq<nat>, k: nat)
    requires DrawsFit(draws, |s|) && k <= |s| && AllDifferent(s)
    ensures AllDifferent(Shuffled(s, draws, k))
  {
    if k > 0 { ShuffledDiffers(s, draws, k - 1); }
  }

  lemma {:induction false} SameDraws(s: seq<int>, a: seq<nat>, b: seq<nat>, k: nat)
    requires DrawsFit(a, |s|) && DrawsFit(b, |s|) && k <= |s| && AllDifferent(s)
    requires Shuffled(s, a, |s|) == Shuffled(s, b, |s|)
    ensures a[..k] == b[..k] && Shuffled(s, a, k) == Shuffled(s, b, k)
  {
    if k > 0 {
      var m := k - 1;
      SameDraws(s, a, b, m);
      DrawnIsFinal(s, a, m);
      DrawnIsFinal(s, b, m);
      ShuffledDiffers(s, a, m);
      SameDraw(Shuffled(s, a, m), m + a[m], m + b[m]);
      SamePrefix(a, b, m);
      ShuffledStep(s, a, m);
      ShuffledStep(s, b, m);
    }
  }

  lemma SameDraw(s: seq<int>, i: nat, j: nat)
    requires i < |s| && j < |s| && AllDifferent(s) && s[i] == s[j]
    ensures i == j
  {}

  lemma SamePrefix(a: seq<nat>, b: seq<nat>, m: nat)
    requires m < |a| && m < |b| && a[..m] == b[..m] && a[m] == b[m]
    ensures a[..m + 1] == b[..m + 1]
  {
    assert a[..m + 1] == a[..m] + [a[m]] && b[..m + 1] == b[..m] + [b[m]];
  }

  /** Different draws shuffle a list of different events differently: no order comes up twice. */
  lemma DrawsDecideOrder(s: seq<int>, a: seq<nat>, b: seq<nat>)
    requires DrawsFit(a, |s|) && DrawsFit(b, |s|) && AllDifferent(s)
    ensures Shuffled(s, a, |s|) == Shuffled(s, b, |s|) <==> a == b
  {
    if Shuffled(s, a, |s|) == Shuffled(s, b, |s|) {
      SameDraws(s, a, b, |s|);
      assert a[..|s|] == a && b[..|s|] == b;
    }
  }

  method IterSwap(events: array<int>, i: nat, j: nat)
    requires i < events.Length && j < events.Length
    modifies events
    ensures events[..] == Swap(old(events[..]), i, j)
  {
    events[i], events[j] := events[j], events[i];
  }

  /**
    Fisher-Yates, emitting as it goes. The random numbers are the parameter draws: every
    process seeds its generator alike, so all processes see the same ones. What is emitted
    is what dealing the fully shuffled list would emit.
  */
  method RandomiseEvents(pno: int, total: int, events: array<int>, draws: seq<nat>) returns (out: seq<int>)
    requires 1 <= pno <= total && DrawsFit(draws, events.Length)
    modifies events
    ensures events[..] == Shuffled(old(events[..]), draws, events.Length)
    ensures out == Dealt(events[..], pno, total)
  {
    ghost var input := events[..];
    var eventsSize := events.Length;
    var counter := 1;
    out := [];
    for i := 0 to events.Length
      invariant counter == i + 1 && eventsSize == events.Length - i
      invariant events[..] == Shuffled(input, draws, i)
      invariant out == Dealt(events[..][..i], pno, total)
    {
      eventsSize := eventsSize - 1;
      ghost var before := events[..];
      IterSwap(events, i, i + draws[i]);
      ShuffledStep(input, draws, i);
      DealtNext(before, events[..], i, pno, total);
      if FallsTo(counter, pno, total) {
        out := out + [events[i]];
      }
      counter := counter + 1;
    }
    assert events[..][..events.Length] == events[..];
  }

  /** Swapping from position i on leaves what was dealt before i alone. */
  lemma DealtNext(before: seq<int>, after: seq<int>, i: nat, pno: int, total: int)
    requires total > 0 && i < |before| == |after| && before[..i] == after[..i]
    ensures Dealt(after[..i + 1], pno, total)
            == Dealt(before[..i], pno, total) + if FallsTo(i + 1, pno, total) then [after[i]] else []
  {
    DealtSnoc(after[..i], after[i], pno, total);
    assert after[..i + 1] == after[..i] + [after[i]];
  }

  /** Over all processes, the shuffling deal emits a permutation of the events. */
  lemma ShuffledDealPartitions(s: seq<int>, draws: seq<nat>, total: int)
    requires total > 0 && DrawsFit(draws, |s|)
    ensures Together(Hands(Shuffled(s, draws, |s|), total)) == multiset(s)
  {
    DealingPartitions(Shuffled(s, draws, |s|), total);
    ShuffledPermutes(s, draws, |s|, Shuffled(s, draws, |s|));
  }
}
