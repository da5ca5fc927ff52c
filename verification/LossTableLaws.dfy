/**
  What the loss tables hold, told from the input alone: which losses count towards a key, how
  often, and what their sum and their maximum are.
*/
module LossTableLaws {
  import opened RealSums
  import opened LossTables

  // ---------- which losses count ----------

  /** Record k of a summary counts in period p of its event. */
  ghost predicate Counts(s: Summary, event_to_periods: map<int, seq<int>>, k: nat, e: Entry) {
    && k < |s.samples| && s.samples[k].1 > 0.0 && s.event_id in event_to_periods
    && e.key.period_no in event_to_periods[s.event_id]
    && e.key.summary_id == s.summary_id && e.key.sidx == s.samples[k].0 && e.loss == s.samples[k].1
  }

  lemma {:induction false} EntriesOfMembers(summary_id: int, sidx: int, loss: real, periods: seq<int>, e: Entry)
    ensures e in EntriesOf(summary_id, sidx, loss, periods) <==>
              e.key.period_no in periods && e.key.summary_id == summary_id && e.key.sidx == sidx && e.loss == loss
  {
    if periods != [] {
      var n := |periods| - 1;
      EntriesOfMembers(summary_id, sidx, loss, periods[..n], e);
      assert periods == periods[..n] + [periods[n]];
      assert e == Entry(Key(e.key.summary_id, e.key.sidx, e.key.period_no), e.loss);
    }
  }

  /** The positive losses of a summary whose event occurs, in every period it occurs in. */
  lemma {:induction false} SummaryMembers(s: Summary, event_to_periods: map<int, seq<int>>, e: Entry)
    requires s.event_id in event_to_periods
    ensures e in SummaryEntries(s.summary_id, s.samples, event_to_periods[s.event_id]) <==>
              exists k: nat :: Counts(s, event_to_periods, k, e)
    decreases |s.samples|
  {
    if s.samples != [] {
      var n := |s.samples| - 1;
      var before, periods := s.(samples := s.samples[..n]), event_to_periods[s.event_id];
      SummaryMembers(before, event_to_periods, e);
      EntriesOfMembers(s.summary_id, s.samples[n].0, s.samples[n].1, periods, e);
      forall k: nat | k < n ensures Counts(before, event_to_periods, k, e) <==> Counts(s, event_to_periods, k, e) {}
      if Counts(s, event_to_periods, n, e) { assert exists k: nat :: Counts(s, event_to_periods, k, e); }
      if k: nat :| Counts(before, event_to_periods, k, e) { assert Counts(s, event_to_periods, k, e); }
      if k: nat :| Counts(s, event_to_periods, k, e) {
        if k < n { assert Counts(before, event_to_periods, k, e); }
      }
    }
  }

  ghost predicate CountsIn(input: seq<Summary>, event_to_periods: map<int, seq<int>>, i: nat, e: Entry) {
    i < |input| && exists k: nat :: Counts(input[i], event_to_periods, k, e)
  }

  ghost predicate SomeCounts(input: seq<Summary>, event_to_periods: map<int, seq<int>>, e: Entry) {
    exists i: nat :: CountsIn(input, event_to_periods, i, e)
  }

  lemma SomeCountsSnoc(input: seq<Summary>, event_to_periods: map<int, seq<int>>, n: nat, e: Entry)
    requires n == |input| - 1
    ensures SomeCounts(input, event_to_periods, e) <==>
              SomeCounts(input[..n], event_to_periods, e) || CountsIn(input, event_to_periods, n, e)
  {
    if i: nat :| CountsIn(input[..n], event_to_periods, i, e) { assert CountsIn(input, event_to_periods, i, e); }
    if i: nat :| CountsIn(input, event_to_periods, i, e) {
      if i < n { assert CountsIn(input[..n], event_to_periods, i, e); }
    }
  }

  /** An entry is made exactly if some record of some summary of the input counts for it. */
  lemma {:induction false} InputMembers(input: seq<Summary>, event_to_periods: map<int, seq<int>>, e: Entry)
    ensures e in InputEntries(input, event_to_periods) <==> SomeCounts(input, event_to_periods, e)
  {
    if input != [] {
      var n := |input| - 1;
      InputMembers(input[..n], event_to_periods, e);
      SomeCountsSnoc(input, event_to_periods, n, e);
      if input[n].event_id in event_to_periods { SummaryMembers(input[n], event_to_periods, e); }
    }
  }

  /** A summary is noted exactly if it has an event that occurs. */
  lemma {:induction false} NotedSummaries(input: seq<Summary>, event_to_periods: map<int, seq<int>>, id: int)
    ensures id in SummaryIds(input, event_to_periods) <==>
              exists i :: 0 <= i < |input| && input[i].event_id in event_to_periods && input[i].summary_id == id
  {
    if input != [] {
      var n := |input| - 1;
      NotedSummaries(input[..n], event_to_periods, id);
      if i :| 0 <= i < n && input[..n][i].event_id in event_to_periods && input[..n][i].summary_id == id {
        assert input[i].event_id in event_to_periods && input[i].summary_id == id;
      }
      if i :| 0 <= i < |input| && input[i].event_id in event_to_periods && input[i].summary_id == id {
        if i < n { assert input[..n][i].event_id in event_to_periods && input[..n][i].summary_id == id; }
      }
    }
  }

  // ---------- the two tables ----------

  /** A key with sidx -1 is found in the table of the mean, every other in that of the samples. */
  lemma {:induction false} TwoTables(log: seq<Entry>, samples: bool, key: Key)
    ensures SumFor(Select(log, samples), key) == if (key.sidx != -1) == samples then SumFor(log, key) else 0.0
    ensures MaxFor(Select(log, samples), key) == if (key.sidx != -1) == samples then MaxFor(log, key) else 0.0
  {
    if log != [] {
      var n := |log| - 1;
      TwoTables(log[..n], samples, key);
      var before := Select(log[..n], samples);
      assert (before + [log[n]])[..|before|] == before;
      assert before + [] == before;
    }
  }

  /** The maximum is one of the losses of the key, and none of them is larger; of positive losses it is positive. */
  lemma {:induction false} MaxForIs(log: seq<Entry>, key: Key)
    ensures MaxFor(log, key) >= 0.0 && forall e :: e in log && e.key == key ==> e.loss <= MaxFor(log, key)
    ensures MaxFor(log, key) > 0.0 ==> Entry(key, MaxFor(log, key)) in log
  {
    if log != [] {
      var n := |log| - 1;
      MaxForIs(log[..n], key);
      assert log == log[..n] + [log[n]];
      assert log[n] == Entry(log[n].key, log[n].loss);
    }
  }

  // ---------- the sum of a key ----------

  /** What a record is worth to a key: its loss, once for every time its event occurs in the period. */
  ghost predicate Worth(s: Summary, event_to_periods: map<int, seq<int>>, k: nat, key: Key, part: real) {
    && k < |s.samples|
    && part == if s.event_id in event_to_periods && s.summary_id == key.summary_id && s.samples[k].0 == key.sidx
                  && s.samples[k].1 > 0.0
               then Times(multiset(event_to_periods[s.event_id])[key.period_no] as real, s.samples[k].1) else 0.0
  }

  lemma {:induction false} EntriesOfSum(summary_id: int, sidx: int, loss: real, periods: seq<int>, key: Key)
    ensures SumFor(EntriesOf(summary_id, sidx, loss, periods), key)
            == if key.summary_id == summary_id && key.sidx == sidx
               then Times(multiset(periods)[key.period_no] as real, loss) else 0.0
  {
    TimesZero(loss);
    if periods != [] {
      var n := |periods| - 1;
      EntriesOfSum(summary_id, sidx, loss, periods[..n], key);
      assert periods == periods[..n] + [periods[n]];
      var before, e := EntriesOf(summary_id, sidx, loss, periods[..n]), Entry(Key(summary_id, sidx, periods[n]), loss);
      assert (before + [e])[..|before|] == before;
      TimesAdds(multiset(periods[..n])[key.period_no] as real, 1.0, loss);
      TimesOne(loss);
      assert multiset(periods)[key.period_no]
             == multiset(periods[..n])[key.period_no] + if periods[n] == key.period_no then 1 else 0;
    }
  }

  lemma {:induction false} SumForConcat(a: seq<Entry>, b: seq<Entry>, key: Key)
    ensures SumFor(a + b, key) == SumFor(a, key) + SumFor(b, key)
  {
    if b == [] {
      assert a + b == a;
    } else {
      SumForConcat(a, b[..|b| - 1], key);
      assert (a + b)[..|a + b| - 1] == a + b[..|b| - 1];
    }
  }

  lemma {:induction false} SummarySum(s: Summary, event_to_periods: map<int, seq<int>>, key: Key, parts: seq<real>)
    requires s.event_id in event_to_periods && |parts| == |s.samples|
    requires forall k: nat :: k < |parts| ==> Worth(s, event_to_periods, k, key, parts[k])
    ensures SumFor(SummaryEntries(s.summary_id, s.samples, event_to_periods[s.event_id]), key) == Sum(parts)
    decreases |s.samples|
  {
    if parts != [] {
      var n := |parts| - 1;
      var before, periods := s.(samples := s.samples[..n]), event_to_periods[s.event_id];
      forall k: nat | k < n ensures Worth(before, event_to_periods, k, key, parts[..n][k]) {
        assert Worth(s, event_to_periods, k, key, parts[k]);
      }
      SummarySum(before, event_to_periods, key, parts[..n]);
      assert Worth(s, event_to_periods, n, key, parts[n]);
      EntriesOfSum(s.summary_id, s.samples[n].0, s.samples[n].1, periods, key);
      var a := SummaryEntries(s.summary_id, s.samples[..n], periods);
      SumForConcat(a, EntriesOf(s.summary_id, s.samples[n].0, s.samples[n].1, periods), key);
      assert a + [] == a;
    }
  }

  lemma NothingWorth(s: Summary, event_to_periods: map<int, seq<int>>, key: Key, parts: seq<real>)
    requires s.event_id !in event_to_periods && |parts| == |s.samples|
    requires forall k: nat :: k < |parts| ==> Worth(s, event_to_periods, k, key, parts[k])
    ensures Sum(parts) == 0.0
  {
    forall k: nat | k < |parts| ensures parts[k] == 0.0 { assert Worth(s, event_to_periods, k, key, parts[k]); }
    ZeroSum(parts);
  }

  /** What the summaries of the input are worth to a key. */
  ghost predicate Worths(input: seq<Summary>, event_to_periods: map<int, seq<int>>, key: Key, i: nat, parts: seq<real>,
                         total: real) {
    && i < |input| && |parts| == |input[i].samples| && total == Sum(parts)
    && forall k: nat :: k < |parts| ==> Worth(input[i], event_to_periods, k, key, parts[k])
  }

  /** The sum that ends up under a key is what all records of the input are worth to it. */
  lemma {:induction false} InputSum(input: seq<Summary>, event_to_periods: map<int, seq<int>>, key: Key,
                                    parts: seq<seq<real>>, totals: seq<real>)
    requires |parts| == |totals| == |input|
    requires forall i: nat :: i < |input| ==> Worths(input, event_to_periods, key, i, parts[i], totals[i])
    ensures SumFor(InputEntries(input, event_to_periods), key) == Sum(totals)
  {
    if input != [] {
      var n := |input| - 1;
      forall i: nat | i < n ensures Worths(input[..n], event_to_periods, key, i, parts[..n][i], totals[..n][i]) {
        assert Worths(input, event_to_periods, key, i, parts[i], totals[i]);
      }
      InputSum(input[..n], event_to_periods, key, parts[..n], totals[..n]);
      assert Worths(input, event_to_periods, key, n, parts[n], totals[n]);
      var a, s := InputEntries(input[..n], event_to_periods), input[n];
      if s.event_id in event_to_periods {
        SummarySum(s, event_to_periods, key, parts[n]);
        SumForConcat(a, SummaryEntries(s.summary_id, s.samples, event_to_periods[s.event_id]), key);
      } else {
        NothingWorth(s, event_to_periods, key, parts[n]);
        assert a + [] == a;
      }
    }
  }

  // ---------- the losses of a summary ----------

  ghost predicate Rising(at: seq<nat>, n: nat) {
    (forall a :: 0 <= a < |at| ==> at[a] < n) && forall a, b :: 0 <= a < b < |at| ==> at[a] < at[b]
  }

  /** For every key of the summary its sum, or its maximum, in the order of the keys. */
  lemma {:induction false} LossesAre(table: map<Key, OutLosses>, order: seq<Key>, summary_id: int, aggregate: bool)
      returns (at: seq<nat>)
    requires forall i :: 0 <= i < |order| ==> order[i] in table
    ensures var losses := Losses(table, order, summary_id, aggregate);
            && |at| == |losses| && Rising(at, |order|)
            && (forall i: nat :: i < |order| ==> (i in at <==> order[i].summary_id == summary_id))
            && forall a :: 0 <= a < |at| ==>
                 losses[a] == if aggregate then table[order[at[a]]].agg_out_loss else table[order[at[a]]].max_out_loss
  {
    if order == [] {
      at := [];
    } else {
      var n := |order| - 1;
      at := LossesAre(table, order[..n], summary_id, aggregate);
      assert n !in at;
      if order[n].summary_id == summary_id { at := at + [n]; }
    }
  }
}
