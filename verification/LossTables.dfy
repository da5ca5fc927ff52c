/**
  leccalc's tables of losses by summary, sample and period, and why the aggregate curve made
  of them is never below the occurrence curve.
*/
module LossTables {
  import opened RealSums
  import opened Exceedance

  datatype Key = Key(summary_id: int, sidx: int, period_no: int)

  /** What the table holds for a key: the sum of the losses and the largest of them. */
  datatype OutLosses = OutLosses(agg_out_loss: real, max_out_loss: real)

  /** One loss counted towards one key. */
  datatype Entry = Entry(key: Key, loss: real)

  // ---------- what the table should hold ----------

  function SumFor(log: seq<Entry>, key: Key): real {
    if log == [] then 0.0
    else
      var e := log[|log| - 1];
      SumFor(log[..|log| - 1], key) + if e.key == key then e.loss else 0.0
  }

  function MaxFor(log: seq<Entry>, key: Key): real {
    if log == [] then 0.0
    else
      var e, before := log[|log| - 1], MaxFor(log[..|log| - 1], key);
      if e.key == key && before < e.loss then e.loss else before
  }

  ghost predicate Mentions(log: seq<Entry>, key: Key) { exists i :: 0 <= i < |log| && log[i].key == key }

  /** The table holds the sum and the maximum of every key mentioned, and no other key. */
  ghost predicate Holds(table: map<Key, OutLosses>, log: seq<Entry>) {
    && (forall key :: key in table <==> Mentions(log, key))
    && (forall key :: key in table ==> table[key] == OutLosses(SumFor(log, key), MaxFor(log, key)))
  }

  /** The entries of one record: its loss counts once for every period its event occurs in. */
  function EntriesOf(summary_id: int, sidx: int, loss: real, periods: seq<int>): seq<Entry> {
    if periods == [] then []
    else EntriesOf(summary_id, sidx, loss, periods[..|periods| - 1])
         + [Entry(Key(summary_id, sidx, periods[|periods| - 1]), loss)]
  }

  /** The entries that go to the table of the samples, or of the mean, whose sidx is -1. */
  function Select(log: seq<Entry>, samples: bool): seq<Entry> {
    if log == [] then []
    else
      var e := log[|log| - 1];
      Select(log[..|log| - 1], samples) + if (e.key.sidx != -1) == samples then [e] else []
  }

  lemma {:induction false} SumForNone(log: seq<Entry>, key: Key)
    requires !Mentions(log, key)
    ensures SumFor(log, key) == 0.0 && MaxFor(log, key) == 0.0
  {
    if log != [] {
      var n := |log| - 1;
      assert log[n].key != key;
      assert forall i :: 0 <= i < n ==> log[..n][i].key != key;
      SumForNone(log[..n], key);
    }
  }

  lemma HoldsSnoc(table: map<Key, OutLosses>, log: seq<Entry>, e: Entry)
    requires Holds(table, log)
    ensures var old_ := if e.key in table then table[e.key] else OutLosses(0.0, 0.0);
            Holds(table[e.key := OutLosses(old_.agg_out_loss + e.loss,
                                           if old_.max_out_loss < e.loss then e.loss else old_.max_out_loss)],
                  log + [e])
  {
    var longer := log + [e];
    assert longer[..|log|] == log;
    if e.key !in table { SumForNone(log, e.key); }
    forall key ensures Mentions(longer, key) <==> Mentions(log, key) || key == e.key {
      if Mentions(log, key) {
        var i :| 0 <= i < |log| && log[i].key == key;
        assert longer[i] == log[i];
      }
      assert longer[|log|] == e;
    }
  }

  // ---------- filling the tables ----------

  /** One line of the input: a summary's samples for an event. */
  datatype Summary = Summary(event_id: int, summary_id: int, samples: seq<(int, real)>)

  /** What one summary adds: its positive losses, in every period of its event. */
  function SummaryEntries(summary_id: int, samples: seq<(int, real)>, periods: seq<int>): seq<Entry> {
    if samples == [] then []
    else
      var (sidx, loss) := samples[|samples| - 1];
      SummaryEntries(summary_id, samples[..|samples| - 1], periods)
      + if loss > 0.0 then EntriesOf(summary_id, sidx, loss, periods) else []
  }

  /** What the input adds: events that do not occur are discarded. */
  function InputEntries(input: seq<Summary>, event_to_periods: map<int, seq<int>>): seq<Entry> {
    if input == [] then []
    else
      var s := input[|input| - 1];
      InputEntries(input[..|input| - 1], event_to_periods)
      + if s.event_id in event_to_periods
        then SummaryEntries(s.summary_id, s.samples, event_to_periods[s.event_id]) else []
  }

  /** operator[] makes a zero entry where there is none. */
  method AddTo(table0: map<Key, OutLosses>, key: Key, loss: real, ghost log: seq<Entry>)
      returns (table: map<Key, OutLosses>)
    requires Holds(table0, log)
    ensures Holds(table, log + [Entry(key, loss)])
  {
    HoldsSnoc(table0, log, Entry(key, loss));
    var out := if key in table0 then table0[key] else OutLosses(0.0, 0.0);
    out := out.(agg_out_loss := out.agg_out_loss + loss);
    if out.max_out_loss < loss { out := out.(max_out_loss := loss); }
    table := table0[key := out];
  }

  lemma Regroup(a: seq<Entry>, b: seq<Entry>, c: seq<Entry>)
    ensures (a + b) + c == a + (b + c)
  {}

  class LecTables {
    var mean: map<Key, OutLosses>
    var samples: map<Key, OutLosses>
    var summaryids: set<int>
    ghost var log: seq<Entry>

    ghost predicate Valid()
      reads this
    {
      Holds(samples, Select(log, true)) && Holds(mean, Select(log, false))
    }

    constructor ()
      ensures Valid() && log == [] && summaryids == {}
    {
      mean, samples, summaryids, log := map[], map[], {}, [];
    }

    /** out_loss[sidx != -1][key] += loss, for one period. */
    method AddLoss(key: Key, loss: real)
      requires Valid()
      modifies this`mean, this`samples, this`log
      ensures Valid() && log == old(log) + [Entry(key, loss)]
    {
      AddedOnce(log, Entry(key, loss));
      if key.sidx != -1 {
        samples := AddTo(samples, key, loss, Select(log, true));
      } else {
        mean := AddTo(mean, key, loss, Select(log, false));
      }
      log := log + [Entry(key, loss)];
    }

    method DoLecOutputAggSummary(summary_id: int, sidx: int, loss: real, periods: seq<int>)
      requires Valid()
      modifies this`mean, this`samples, this`log
      ensures Valid() && log == old(log) + EntriesOf(summary_id, sidx, loss, periods)
    {
      for i := 0 to |periods|
        invariant Valid() && log == old(log) + EntriesOf(summary_id, sidx, loss, periods[..i])
      {
        AddLoss(Key(summary_id, sidx, periods[i]), loss);
        assert periods[..i + 1][..i] == periods[..i];
      }
      assert periods[..|periods|] == periods;
    }

    method ProcessSamples(summary_id: int, recs: seq<(int, real)>, periods: seq<int>)
      requires Valid()
      modifies this`mean, this`samples, this`log
      ensures Valid() && log == old(log) + SummaryEntries(summary_id, recs, periods)
    {
      for i := 0 to |recs|
        invariant Valid() && log == old(log) + SummaryEntries(summary_id, recs[..i], periods)
      {
        assert recs[..i + 1][..i] == recs[..i];
        var (sidx, loss) := recs[i];
        ghost var more := if loss > 0.0 then EntriesOf(summary_id, sidx, loss, periods) else [];
        Regroup(old(log), SummaryEntries(summary_id, recs[..i], periods), more);
        if loss > 0.0 { DoLecOutputAggSummary(summary_id, sidx, loss, periods); }
      }
      assert recs[..|recs|] == recs;
    }

    /** One summary of an event; events that do not occur are discarded. */
    method ProcessSummary(s: Summary, event_to_periods: map<int, seq<int>>)
      requires Valid()
      modifies this
      ensures Valid()
      ensures log == old(log) + EntriesFor(s, event_to_periods)
      ensures summaryids == old(summaryids) + IdOf(s, event_to_periods)
    {
      if s.event_id in event_to_periods {
        summaryids := summaryids + {s.summary_id};
        ProcessSamples(s.summary_id, s.samples, event_to_periods[s.event_id]);
      }
    }

    method ProcessInputFile(input: seq<Summary>, event_to_periods: map<int, seq<int>>)
      requires Valid()
      modifies this
      ensures Valid() && log == old(log) + InputEntries(input, event_to_periods)
      ensures summaryids == old(summaryids) + SummaryIds(input, event_to_periods)
    {
      for i := 0 to |input|
        invariant Valid() && log == old(log) + InputEntries(input[..i], event_to_periods)
        invariant summaryids == old(summaryids) + SummaryIds(input[..i], event_to_periods)
      {
        InputSnoc(input, event_to_periods, i, old(log), old(summaryids));
        ProcessSummary(input[i], event_to_periods);
      }
      assert input[..|input|] == input;
    }
  }

  function IdOf(s: Summary, event_to_periods: map<int, seq<int>>): set<int> {
    if s.event_id in event_to_periods then {s.summary_id} else {}
  }

  /** The summaries of the events that occur. */
  function SummaryIds(input: seq<Summary>, event_to_periods: map<int, seq<int>>): (ids: set<int>)
    ensures forall s :: s in input && s.event_id in event_to_periods ==> s.summary_id in ids
  {
    if input == [] then {}
    else
      assert forall s :: s in input ==> s in input[..|input| - 1] || s == input[|input| - 1];
      SummaryIds(input[..|input| - 1], event_to_periods) + IdOf(input[|input| - 1], event_to_periods)
  }

  /** The entries of one summary. */
  function EntriesFor(s: Summary, event_to_periods: map<int, seq<int>>): seq<Entry> {
    if s.event_id in event_to_periods
    then SummaryEntries(s.summary_id, s.samples, event_to_periods[s.event_id]) else []
  }

  lemma InputSnoc(input: seq<Summary>, event_to_periods: map<int, seq<int>>, i: nat, start: seq<Entry>, ids: set<int>)
    requires i < |input|
    ensures start + InputEntries(input[..i + 1], event_to_periods)
            == start + InputEntries(input[..i], event_to_periods) + EntriesFor(input[i], event_to_periods)
    ensures ids + SummaryIds(input[..i + 1], event_to_periods)
            == ids + SummaryIds(input[..i], event_to_periods) + IdOf(input[i], event_to_periods)
  {
    assert input[..i + 1][..i] == input[..i];
    Regroup(start, InputEntries(input[..i], event_to_periods), EntriesFor(input[i], event_to_periods));
  }

  lemma AddedOnce(log: seq<Entry>, e: Entry)
    ensures Select(log + [e], e.key.sidx != -1) == Select(log, e.key.sidx != -1) + [e]
    ensures Select(log + [e], e.key.sidx == -1) == Select(log, e.key.sidx == -1)
  {
    assert (log + [e])[..|log|] == log;
  }

  // ---------- sum and maximum ----------

  ghost predicate PositiveLosses(log: seq<Entry>) { forall i :: 0 <= i < |log| ==> log[i].loss > 0.0 }

  lemma {:induction false} EntriesPositive(input: seq<Summary>, event_to_periods: map<int, seq<int>>)
    ensures PositiveLosses(InputEntries(input, event_to_periods))
  {
    if input != [] {
      EntriesPositive(input[..|input| - 1], event_to_periods);
      var s := input[|input| - 1];
      if s.event_id in event_to_periods { SummaryPositive(s.summary_id, s.samples, event_to_periods[s.event_id]); }
    }
  }

  lemma {:induction false} SummaryPositive(summary_id: int, samples: seq<(int, real)>, periods: seq<int>)
    ensures PositiveLosses(SummaryEntries(summary_id, samples, periods))
  {
    if samples != [] {
      SummaryPositive(summary_id, samples[..|samples| - 1], periods);
      RecordEntries(summary_id, samples[|samples| - 1].0, samples[|samples| - 1].1, periods);
    }
  }

  lemma {:induction false} RecordEntries(summary_id: int, sidx: int, loss: real, periods: seq<int>)
    ensures forall i :: 0 <= i < |EntriesOf(summary_id, sidx, loss, periods)| ==>
              EntriesOf(summary_id, sidx, loss, periods)[i].loss == loss
  {
    if periods != [] { RecordEntries(summary_id, sidx, loss, periods[..|periods| - 1]); }
  }

  lemma {:induction false} SelectPositive(log: seq<Entry>, samples: bool)
    requires PositiveLosses(log)
    ensures PositiveLosses(Select(log, samples))
  {
    if log != [] { SelectPositive(log[..|log| - 1], samples); }
  }

  /** Of positive losses the sum is never less than the maximum. */
  lemma {:induction false} SumAtLeastMax(log: seq<Entry>, key: Key)
    requires PositiveLosses(log)
    ensures SumFor(log, key) >= MaxFor(log, key) >= 0.0
  {
    if log != [] { SumAtLeastMax(log[..|log| - 1], key); }
  }

  // ---------- from table to ranked losses ----------

  /** The losses of one summary, in the order of the table's keys. */
  function Losses(table: map<Key, OutLosses>, order: seq<Key>, summary_id: int, aggregate: bool): seq<real>
    requires forall i :: 0 <= i < |order| ==> order[i] in table
  {
    if order == [] then []
    else
      var key := order[|order| - 1];
      Losses(table, order[..|order| - 1], summary_id, aggregate)
      + if key.summary_id == summary_id
        then [if aggregate then table[key].agg_out_loss else table[key].max_out_loss] else []
  }

  /** FullUncertainty, for one summary: the losses are collected and their table written. */
  method FullUncertainty(table: map<Key, OutLosses>, order: seq<Key>, summary_id: int, aggregate: bool,
                         periods: seq<real>, maxPeriod: real)
      returns (out: seq<Row>, met: nat)
    requires forall i :: 0 <= i < |order| ==> order[i] in table
    requires maxPeriod > 0.0 && Descending(periods)
    ensures Met(periods, met)
    ensures out == Table(maxPeriod, PerSample(SortDescending(Losses(table, order, summary_id, aggregate)), 1),
                         periods[..met])
  {
    var items := [];
    for i := 0 to |order|
      invariant items == Losses(table, order[..i], summary_id, aggregate)
    {
      assert order[..i + 1][..i] == order[..i];
      var key := order[i];
      if key.summary_id == summary_id {
        items := items + [if aggregate then table[key].agg_out_loss else table[key].max_out_loss];
      }
    }
    assert order[..|order|] == order;
    out, met := WriteReturnPeriods(items, periods, maxPeriod, 1);
  }

  // ---------- ranking keeps dominance ----------

  /** How many losses are at least t. */
  function CountAtLeast(l: seq<real>, t: real): nat {
    if l == [] then 0 else (if l[0] >= t then 1 else 0) + CountAtLeast(l[1..], t)
  }

  lemma {:induction false} InsertCounts(x: real, l: seq<real>, t: real)
    ensures CountAtLeast(InsertDescending(x, l), t) == CountAtLeast(l, t) + if x >= t then 1 else 0
  {
    if l != [] && x < l[0] {
      InsertCounts(x, l[1..], t);
      assert ([l[0]] + InsertDescending(x, l[1..]))[1..] == InsertDescending(x, l[1..]);
    } else {
      assert ([x] + l)[1..] == l;
    }
  }

  lemma {:induction false} SortCounts(s: seq<real>, t: real)
    ensures CountAtLeast(SortDescending(s), t) == CountAtLeast(s, t)
  {
    if s != [] {
      SortCounts(s[1..], t);
      InsertCounts(s[0], SortDescending(s[1..]), t);
    }
  }

  lemma {:induction false} NoneAtLeast(l: seq<real>, t: real)
    requires forall i :: 0 <= i < |l| ==> l[i] < t
    ensures CountAtLeast(l, t) == 0
  {
    if l != [] { NoneAtLeast(l[1..], t); }
  }

  /** In a ranking, position i holds at least t exactly if more than i losses are at least t. */
  lemma {:induction false} CountIsRank(l: seq<real>, t: real, i: nat)
    requires Descending(l) && i < |l|
    ensures l[i] >= t <==> CountAtLeast(l, t) > i
  {
    if l[0] < t {
      NoneAtLeast(l, t);
    } else if i > 0 {
      CountIsRank(l[1..], t, i - 1);
    }
  }

  lemma {:induction false} CountDominates(a: seq<real>, b: seq<real>, t: real)
    requires |a| == |b| && forall i :: 0 <= i < |a| ==> a[i] >= b[i]
    ensures CountAtLeast(a, t) >= CountAtLeast(b, t)
  {
    if a != [] { CountDominates(a[1..], b[1..], t); }
  }

  /** Losses that dominate one by one still dominate after each list is ranked on its own. */
  lemma RankingDominates(a: seq<real>, b: seq<real>, i: nat)
    requires |a| == |b| && i < |a| && forall k :: 0 <= k < |a| ==> a[k] >= b[k]
    ensures |SortDescending(a)| == |SortDescending(b)| == |a|
    ensures SortDescending(a)[i] >= SortDescending(b)[i]
  {
    SortSorts(a);
    SortSorts(b);
    var t := SortDescending(b)[i];
    CountIsRank(SortDescending(b), t, i);
    SortCounts(a, t);
    SortCounts(b, t);
    CountDominates(a, b, t);
    CountIsRank(SortDescending(a), t, i);
  }

  // ---------- aggregate above occurrence ----------

  lemma {:induction false} LossesDominate(table: map<Key, OutLosses>, order: seq<Key>, summary_id: int)
    requires forall i :: 0 <= i < |order| ==> order[i] in table
    requires forall key :: key in table ==> table[key].agg_out_loss >= table[key].max_out_loss >= 0.0
    ensures var a, m := Losses(table, order, summary_id, true), Losses(table, order, summary_id, false);
            |a| == |m| && forall k :: 0 <= k < |a| ==> a[k] >= m[k] >= 0.0
  {
    if order != [] { LossesDominate(table, order[..|order| - 1], summary_id); }
  }

  lemma {:induction false} SortNonNegative(s: seq<real>)
    requires NonNegative(s)
    ensures NonNegative(SortDescending(s))
  {
    if s != [] {
      SortNonNegative(s[1..]);
      InsertNonNegative(s[0], SortDescending(s[1..]));
    }
  }

  lemma {:induction false} InsertNonNegative(x: real, l: seq<real>)
    requires x >= 0.0 && NonNegative(l)
    ensures NonNegative(InsertDescending(x, l))
  {
    if l != [] && x < l[0] { InsertNonNegative(x, l[1..]); }
  }

  lemma PerOne(l: seq<real>)
    ensures PerSample(l, 1) == l
  {}

  /**
    At every return period the aggregate exceedance loss is at least the occurrence
    exceedance loss, for any input.
  */
  lemma AggregateDominates(input: seq<Summary>, event_to_periods: map<int, seq<int>>, table: map<Key, OutLosses>,
                           order: seq<Key>, summary_id: int, maxPeriod: real, p: real)
    requires Holds(table, Select(InputEntries(input, event_to_periods), true))
    requires forall i :: 0 <= i < |order| ==> order[i] in table
    requires maxPeriod > 0.0 && p <= maxPeriod
    ensures CurveAt(maxPeriod, PerSample(SortDescending(Losses(table, order, summary_id, true)), 1), p)
            >= CurveAt(maxPeriod, PerSample(SortDescending(Losses(table, order, summary_id, false)), 1), p)
  {
    var log := Select(InputEntries(input, event_to_periods), true);
    EntriesPositive(input, event_to_periods);
    SelectPositive(InputEntries(input, event_to_periods), true);
    forall key | key in table ensures table[key].agg_out_loss >= table[key].max_out_loss >= 0.0 {
      SumAtLeastMax(log, key);
    }
    LossesDominate(table, order, summary_id);
    RankedCurvesDominate(Losses(table, order, summary_id, true), Losses(table, order, summary_id, false), maxPeriod, p);
  }

  lemma RankedCurvesDominate(a: seq<real>, m: seq<real>, maxPeriod: real, p: real)
    requires |a| == |m| && forall k :: 0 <= k < |a| ==> a[k] >= m[k] >= 0.0
    requires maxPeriod > 0.0 && p <= maxPeriod
    ensures CurveAt(maxPeriod, PerSample(SortDescending(a), 1), p)
            >= CurveAt(maxPeriod, PerSample(SortDescending(m), 1), p)
  {
    SortSorts(a);
    SortSorts(m);
    SortNonNegative(m);
    PerOne(SortDescending(a));
    PerOne(SortDescending(m));
    forall i: nat | i < |a| ensures SortDescending(a)[i] >= SortDescending(m)[i] {
      RankingDominates(a, m, i);
    }
    CurveDominates(maxPeriod, SortDescending(a), SortDescending(m), p);
  }
}
