/**
  From the summary streams to the average loss: the lines written from the sorted map of
  offsets into all files are in the order the walk needs, and what they add up to is what was
  written to the streams.
*/
module IndexWalk {
  import opened SummaryIndex
  import opened AverageLoss

  // ---------- the order of the keys ----------

  /** operator< on summary_period. */
  predicate Less(a: Key, b: Key) {
    if a.summary_id != b.summary_id then a.summary_id < b.summary_id
    else if a.period_no != b.period_no then a.period_no < b.period_no
    else a.fileindex < b.fileindex
  }

  /** The order a std::map needs: exactly one of less, equal and greater, and transitive. */
  lemma LessIsTotalOrder(a: Key, b: Key, c: Key)
    ensures !(Less(a, b) && Less(b, a)) && (Less(a, b) || Less(b, a) <==> a != b)
    ensures Less(a, b) && Less(b, c) ==> Less(a, c)
  {}

  ghost predicate Ascending(keys: seq<Key>) { forall i, j :: 0 <= i < j < |keys| ==> Less(keys[i], keys[j]) }

  // ---------- the lines ----------

  /** The lines of one key: one for every offset, with the samples that stand there. */
  function OffsetLines(words: seq<Word>, key: Key, offsets: seq<int>): (r: seq<Line>)
    requires key.summary_id >= 0 && key.period_no >= 0
    ensures |r| == |offsets|
    ensures forall i :: 0 <= i < |r| ==> r[i].summary_id == key.summary_id && r[i].period_no == key.period_no
  {
    if offsets == [] then []
    else OffsetLines(words, key, offsets[..|offsets| - 1])
         + [Line(key.summary_id, key.period_no, SamplesAt(words, offsets[|offsets| - 1]))]
  }

  function SamplesAt(words: seq<Word>, offset: int): seq<SampleRec> {
    if offset >= 0 && offset / WORD + 3 <= |words| then RecsFrom(words, offset / WORD + 3) else []
  }

  function OffsetsAt(table: map<Key, seq<int>>, k: Key): seq<int> { if k in table then table[k] else [] }

  /** The stream of a file. */
  function FileWords(files: seq<seq<Word>>, f: int): seq<Word> { if 0 <= f < |files| then files[f] else [] }

  /** summaries.idx: the map in its order. */
  function LinesOf(files: seq<seq<Word>>, table: map<Key, seq<int>>, keys: seq<Key>): seq<Line>
    requires forall k :: k in keys ==> k.summary_id >= 0 && k.period_no >= 0
  {
    if keys == [] then []
    else
      var k := keys[|keys| - 1];
      LinesOf(files, table, keys[..|keys| - 1]) + OffsetLines(FileWords(files, k.fileindex), k, OffsetsAt(table, k))
  }

  /** Every line comes from one of the keys. */
  lemma {:induction false} LineKeys(files: seq<seq<Word>>, table: map<Key, seq<int>>, keys: seq<Key>, i: nat)
    returns (k: nat)
    requires forall k :: k in keys ==> k.summary_id >= 0 && k.period_no >= 0
    requires i < |LinesOf(files, table, keys)|
    ensures k < |keys|
    ensures LinesOf(files, table, keys)[i].summary_id == keys[k].summary_id
            && LinesOf(files, table, keys)[i].period_no == keys[k].period_no
  {
    var n := |keys| - 1;
    if i < |LinesOf(files, table, keys[..n])| { k := LineKeys(files, table, keys[..n], i); } else { k := n; }
  }

  /** The lines are in order. */
  lemma {:induction false} LinesInOrder(files: seq<seq<Word>>, table: map<Key, seq<int>>, keys: seq<Key>)
    requires forall k :: k in keys ==> k.summary_id >= 0 && k.period_no >= 0
    requires Ascending(keys)
    ensures InOrder(LinesOf(files, table, keys))
  {
    if keys != [] {
      var n := |keys| - 1;
      var before := LinesOf(files, table, keys[..n]);
      LinesInOrder(files, table, keys[..n]);
      forall i: nat | i < |before|
        ensures before[i].summary_id < keys[n].summary_id
                || (before[i].summary_id == keys[n].summary_id && before[i].period_no <= keys[n].period_no)
      {
        var k := LineKeys(files, table, keys[..n], i);
        assert Less(keys[k], keys[n]);
      }
    }
  }

  // ---------- what the lines add up to ----------

  function OffsetsSum(words: seq<Word>, offsets: seq<int>, i: nat): real {
    if offsets == [] then 0.0
    else OffsetsSum(words, offsets[..|offsets| - 1], i) + LineSum(SamplesAt(words, offsets[|offsets| - 1]), i)
  }

  lemma {:induction false} CellConcat(a: seq<Line>, b: seq<Line>, s: nat, p: nat, i: nat)
    ensures CellSum(a + b, s, p, i) == CellSum(a, s, p, i) + CellSum(b, s, p, i)
  {
    if b == [] {
      assert a + b == a;
    } else {
      var n := |b| - 1;
      CellConcat(a, b[..n], s, p, i);
      assert b == b[..n] + [b[n]];
      assert a + b == (a + b[..n]) + [b[n]];
      CellSnoc(a + b[..n], b[n], s, p, i);
    }
  }

  lemma {:induction false} OffsetLinesSum(words: seq<Word>, key: Key, offsets: seq<int>, s: nat, p: nat, i: nat)
    requires key.summary_id >= 0 && key.period_no >= 0
    ensures CellSum(OffsetLines(words, key, offsets), s, p, i)
            == if key.summary_id == s && key.period_no == p then OffsetsSum(words, offsets, i) else 0.0
  {
    if offsets != [] {
      var n := |offsets| - 1;
      OffsetLinesSum(words, key, offsets[..n], s, p, i);
      CellSnoc(OffsetLines(words, key, offsets[..n]),
               Line(key.summary_id, key.period_no, SamplesAt(words, offsets[n])), s, p, i);
    }
  }

  /** What the offsets of a summary and period into one file add up to, if the key is among these. */
  function FileSum(files: seq<seq<Word>>, table: map<Key, seq<int>>, keys: seq<Key>, f: nat, s: nat, p: nat,
                   i: nat): real {
    if Key(s, p, f) in keys then OffsetsSum(FileWords(files, f), OffsetsAt(table, Key(s, p, f)), i) else 0.0
  }

  /** The same over the first n files. */
  function FilesSum(files: seq<seq<Word>>, table: map<Key, seq<int>>, keys: seq<Key>, n: nat, s: nat, p: nat,
                    i: nat): real {
    if n == 0 then 0.0
    else FilesSum(files, table, keys, n - 1, s, p, i) + FileSum(files, table, keys, n - 1, s, p, i)
  }

  /** One more key adds what it stands for, once. */
  lemma {:induction false} OneMoreKey(files: seq<seq<Word>>, table: map<Key, seq<int>>, keys: seq<Key>, n: nat,
                                      s: nat, p: nat, i: nat)
    requires Ascending(keys) && keys != []
    ensures var k := keys[|keys| - 1];
            FilesSum(files, table, keys, n, s, p, i)
            == FilesSum(files, table, keys[..|keys| - 1], n, s, p, i)
               + if k.summary_id == s && k.period_no == p && 0 <= k.fileindex < n
                 then OffsetsSum(FileWords(files, k.fileindex), OffsetsAt(table, k), i) else 0.0
  {
    if n > 0 {
      OneMoreKey(files, table, keys, n - 1, s, p, i);
      LastKey(keys, Key(s, p, n - 1));
    }
  }

  /** The lines add up to what the files contribute. */
  lemma {:induction false} LinesSum(files: seq<seq<Word>>, table: map<Key, seq<int>>, keys: seq<Key>, n: nat,
                                    s: nat, p: nat, i: nat)
    requires forall k :: k in keys ==> k.summary_id >= 0 && k.period_no >= 0 && 0 <= k.fileindex < n
    requires Ascending(keys)
    ensures CellSum(LinesOf(files, table, keys), s, p, i) == FilesSum(files, table, keys, n, s, p, i)
  {
    if keys == [] {
      NoKeys(files, table, n, s, p, i);
    } else {
      var m := |keys| - 1;
      var k := keys[m];
      var words, offsets := FileWords(files, k.fileindex), OffsetsAt(table, k);
      LinesSum(files, table, keys[..m], n, s, p, i);
      CellConcat(LinesOf(files, table, keys[..m]), OffsetLines(words, k, offsets), s, p, i);
      OffsetLinesSum(words, k, offsets, s, p, i);
      OneMoreKey(files, table, keys, n, s, p, i);
    }
  }

  lemma {:induction false} NoKeys(files: seq<seq<Word>>, table: map<Key, seq<int>>, n: nat, s: nat, p: nat, i: nat)
    ensures FilesSum(files, table, [], n, s, p, i) == 0.0
  {
    if n > 0 { NoKeys(files, table, n - 1, s, p, i); }
  }

  lemma LastKey(keys: seq<Key>, k: Key)
    requires Ascending(keys) && keys != []
    ensures keys[|keys| - 1] !in keys[..|keys| - 1]
    ensures k in keys <==> k in keys[..|keys| - 1] || k == keys[|keys| - 1]
  {
    var n := |keys| - 1;
    assert forall j :: 0 <= j < n ==> Less(keys[j], keys[n]);
    assert keys == keys[..n] + [keys[n]];
  }

  // ---------- what was written ----------

  /** x once for every occurrence of p. */
  function PeriodsSum(periods: seq<int>, p: int, x: real): real {
    if periods == [] then 0.0
    else PeriodsSum(periods[..|periods| - 1], p, x) + if periods[|periods| - 1] == p then x else 0.0
  }

  /** What the headers found contribute to a summary, period and sample. */
  function HeadsSum(words: seq<Word>, heads: seq<Head>, etp: EventPeriods, s: int, p: int, i: nat): real
    decreases |heads|
  {
    if heads == [] then 0.0
    else
      var h := heads[0];
      (if h.summary_id == s && h.event_id in etp
       then PeriodsSum(etp[h.event_id], p, LineSum(SamplesAt(words, h.offset), i)) else 0.0)
      + HeadsSum(words, heads[1..], etp, s, p, i)
  }

  lemma {:induction false} PushPeriodsSum(words: seq<Word>, table: map<Key, seq<int>>, summary_id: int, file_id: int,
                                          offset: int, periods: seq<int>, s: int, p: int, i: nat)
    ensures var k := Key(s, p, file_id);
            OffsetsSum(words, OffsetsAt(PushPeriods(table, summary_id, file_id, offset, periods), k), i)
            == OffsetsSum(words, OffsetsAt(table, k), i)
               + if summary_id == s then PeriodsSum(periods, p, LineSum(SamplesAt(words, offset), i)) else 0.0
  {
    if periods != [] {
      var n := |periods| - 1;
      PushPeriodsSum(words, table, summary_id, file_id, offset, periods[..n], s, p, i);
      var t := PushPeriods(table, summary_id, file_id, offset, periods[..n]);
      OneOffset(words, OffsetsAt(t, Key(summary_id, periods[n], file_id)), offset, i);
    }
  }

  lemma OneOffset(words: seq<Word>, offsets: seq<int>, offset: int, i: nat)
    ensures OffsetsSum(words, offsets + [offset], i)
            == OffsetsSum(words, offsets, i) + LineSum(SamplesAt(words, offset), i)
  {
    assert (offsets + [offset])[..|offsets|] == offsets;
  }

  lemma {:induction false} IndexedSum(words: seq<Word>, table: map<Key, seq<int>>, heads: seq<Head>, file_id: int,
                                      etp: EventPeriods, s: int, p: int, i: nat)
    ensures var k := Key(s, p, file_id);
            OffsetsSum(words, OffsetsAt(Indexed(table, heads, file_id, etp), k), i)
            == OffsetsSum(words, OffsetsAt(table, k), i) + HeadsSum(words, heads, etp, s, p, i)
    decreases |heads|
  {
    if heads != [] {
      var h := heads[0];
      if h.event_id in etp {
        PushPeriodsSum(words, table, h.summary_id, file_id, h.offset, etp[h.event_id], s, p, i);
        IndexedSum(words, PushPeriods(table, h.summary_id, file_id, h.offset, etp[h.event_id]), heads[1..],
                   file_id, etp, s, p, i);
      } else {
        IndexedSum(words, table, heads[1..], file_id, etp, s, p, i);
      }
    }
  }

  /** What the blocks written contribute. */
  function BlocksSum(blocks: seq<Block>, k: nat, etp: EventPeriods, s: int, p: int, i: nat): real
    requires k <= |blocks|
    decreases |blocks| - k
  {
    if k == |blocks| then 0.0
    else
      var b := blocks[k];
      (if b.summary_id == s && b.event_id in etp then PeriodsSum(etp[b.event_id], p, LineSum(b.recs, i)) else 0.0)
      + BlocksSum(blocks, k + 1, etp, s, p, i)
  }

  lemma {:induction false} HeadsAreBlocks(words: seq<Word>, blocks: seq<Block>, k: nat, etp: EventPeriods,
                                          s: int, p: int, i: nat)
    requires IsStream(words, blocks) && k <= |blocks|
    ensures HeadsSum(words, BlockHeads(blocks, k), etp, s, p, i) == BlocksSum(blocks, k, etp, s, p, i)
    decreases |blocks| - k
  {
    if k < |blocks| {
      HeadsAreBlocks(words, blocks, k + 1, etp, s, p, i);
      IndexIsRight(words, blocks, k);
      IndexAt(blocks, k);
      WordOffset(StartOf(blocks, k));
      var h := Head(WORD * StartOf(blocks, k), blocks[k].event_id, blocks[k].summary_id);
      assert ([h] + BlockHeads(blocks, k + 1))[1..] == BlockHeads(blocks, k + 1);
    }
  }

  // ---------- all files ----------

  /** Indexing one file leaves the offsets into the others alone. */
  lemma {:induction false} OtherFile(table: map<Key, seq<int>>, heads: seq<Head>, file_id: int, etp: EventPeriods,
                                     k: Key)
    requires k.fileindex != file_id
    ensures var after := Indexed(table, heads, file_id, etp);
            (k in after <==> k in table) && OffsetsAt(after, k) == OffsetsAt(table, k)
    decreases |heads|
  {
    if heads != [] {
      var h := heads[0];
      if h.event_id in etp {
        OtherFilePushed(table, h.summary_id, file_id, h.offset, etp[h.event_id], k);
        OtherFile(PushPeriods(table, h.summary_id, file_id, h.offset, etp[h.event_id]), heads[1..], file_id, etp, k);
      } else {
        OtherFile(table, heads[1..], file_id, etp, k);
      }
    }
  }

  lemma {:induction false} OtherFilePushed(table: map<Key, seq<int>>, summary_id: int, file_id: int, offset: int,
                                           periods: seq<int>, k: Key)
    requires k.fileindex != file_id
    ensures var after := PushPeriods(table, summary_id, file_id, offset, periods);
            (k in after <==> k in table) && OffsetsAt(after, k) == OffsetsAt(table, k)
  {
    if periods != [] { OtherFilePushed(table, summary_id, file_id, offset, periods[..|periods| - 1], k); }
  }

  /** The headers of a stream. */
  function FileHeads(words: seq<Word>): seq<Head> { if |words| >= 3 then Heads(words, 3) else [] }

  function AllHeads(files: seq<seq<Word>>): (r: seq<seq<Head>>)
    ensures |r| == |files| && forall f :: 0 <= f < |r| ==> r[f] == FileHeads(files[f])
  {
    seq(|files|, f requires 0 <= f < |files| => FileHeads(files[f]))
  }

  /** The map after the headers of the first n files. */
  function FilesTable(heads: seq<seq<Head>>, etp: EventPeriods, n: nat): map<Key, seq<int>>
    requires n <= |heads|
  {
    if n == 0 then map[] else Indexed(FilesTable(heads, etp, n - 1), heads[n - 1], n - 1, etp)
  }

  /** An index file of a stream, if there is one. */
  datatype File = File(words: seq<Word>, idx: seq<(int, int)>, hasIndex: bool)

  /** A stream the writer left, with its index if it has one. */
  ghost predicate FileFits(file: File, blocks: seq<Block>) {
    IsStream(file.words, blocks) && (file.hasIndex ==> file.idx == IndexOf(blocks, WORD * 3))
  }

  /** The file has an index, or every event of its stream has periods. */
  predicate Indexable(file: File, etp: EventPeriods) { file.hasIndex || AllHavePeriods(FileHeads(file.words), etp) }

  /** A file is indexed by its index file, or by a rescan where there is none. */
  method IndexFile(file: File, table: map<Key, seq<int>>, file_id: int, etp: EventPeriods, ghost blocks: seq<Block>)
      returns (r: Result<map<Key, seq<int>>>)
    requires FileFits(file, blocks)
    ensures Indexable(file, etp) ==> r == Ok(Indexed(table, FileHeads(file.words), file_id, etp))
    ensures !Indexable(file, etp) ==> r.MissingEvent? && r.event_id !in etp
  {
    if file.hasIndex {
      IndexMatchesRescan(file.words, blocks);
      var t := IndexEventsFromIndex(file.words, file.idx, table, file_id, etp);
      r := Ok(t);
    } else {
      r := IndexEventsFromStream(file.words, table, file_id, etp);
    }
  }

  /** Streams the writer left, their headers, and whether they can be indexed. */
  ghost predicate AllFit(files: seq<File>, etp: EventPeriods, blocks: seq<seq<Block>>, heads: seq<seq<Head>>,
                         indexable: seq<bool>)
  {
    |blocks| == |heads| == |indexable| == |files|
    && forall f: nat {:trigger FitAt(files, etp, blocks, heads, indexable, f)} :: f < |files| ==>
         FitAt(files, etp, blocks, heads, indexable, f)
  }

  ghost predicate FitAt(files: seq<File>, etp: EventPeriods, blocks: seq<seq<Block>>, heads: seq<seq<Head>>,
                        indexable: seq<bool>, f: nat)
    requires f < |files| == |blocks| == |heads| == |indexable|
  {
    FileFits(files[f], blocks[f]) && heads[f] == FileHeads(files[f].words) && indexable[f] == Indexable(files[f], etp)
  }

  /** The next file in turn. */
  method IndexNext(files: seq<File>, f: nat, table: map<Key, seq<int>>, etp: EventPeriods,
                   ghost blocks: seq<seq<Block>>,
                   ghost heads: seq<seq<Head>>, ghost indexable: seq<bool>)
      returns (ok: bool, t: map<Key, seq<int>>)
    requires f < |files| && AllFit(files, etp, blocks, heads, indexable) && table == FilesTable(heads, etp, f)
    ensures ok == indexable[f]
    ensures t == if ok then FilesTable(heads, etp, f + 1) else table
  {
    assert FitAt(files, etp, blocks, heads, indexable, f);
    var r := IndexFile(files[f], table, f, etp, blocks[f]);
    ok := r.Ok?;
    t := if ok then r.value else table;
  }

  /** doit: all files into one map; the first file that cannot be indexed ends it. */
  method IndexFiles(files: seq<File>, etp: EventPeriods, ghost blocks: seq<seq<Block>>, ghost heads: seq<seq<Head>>,
                    ghost indexable: seq<bool>)
      returns (done: nat, table: map<Key, seq<int>>)
    requires AllFit(files, etp, blocks, heads, indexable)
    ensures done <= |files| && table == FilesTable(heads, etp, done)
    ensures (forall g :: 0 <= g < done ==> indexable[g]) && (done < |files| ==> !indexable[done])
  {
    table, done := map[], 0;
    for f := 0 to |files|
      invariant done == f && table == FilesTable(heads, etp, f)
      invariant forall g :: 0 <= g < f ==> indexable[g]
    {
      var ok;
      ok, table := IndexNext(files, f, table, etp, blocks, heads, indexable);
      if !ok { return; }
      done := f + 1;
    }
  }

  /** The map holds, under each file, what the headers of that file contribute. */
  lemma {:induction false} TableSum(files: seq<seq<Word>>, heads: seq<seq<Head>>, etp: EventPeriods, n: nat, f: nat,
                                    s: int, p: int, i: nat)
    requires n <= |heads|
    ensures OffsetsSum(FileWords(files, f), OffsetsAt(FilesTable(heads, etp, n), Key(s, p, f)), i)
            == if f < n then HeadsSum(FileWords(files, f), heads[f], etp, s, p, i) else 0.0
  {
    if n > 0 {
      TableSum(files, heads, etp, n - 1, f, s, p, i);
      if f == n - 1 {
        IndexedSum(FileWords(files, f), FilesTable(heads, etp, n - 1), heads[n - 1], f, etp, s, p, i);
      } else {
        OtherFile(FilesTable(heads, etp, n - 1), heads[n - 1], n - 1, etp, Key(s, p, f));
      }
    }
  }

  /** Only the files seen are in the keys. */
  lemma {:induction false} TableFiles(heads: seq<seq<Head>>, etp: EventPeriods, n: nat, k: Key)
    requires n <= |heads| && k in FilesTable(heads, etp, n)
    ensures 0 <= k.fileindex < n
  {
    if n > 0 {
      if k.fileindex != n - 1 {
        OtherFile(FilesTable(heads, etp, n - 1), heads[n - 1], n - 1, etp, k);
        TableFiles(heads, etp, n - 1, k);
      }
    }
  }

  /** What the blocks of the first n files contribute. */
  function WrittenSum(blocks: seq<seq<Block>>, n: nat, etp: EventPeriods, s: int, p: int, i: nat): real
    requires n <= |blocks|
  {
    if n == 0 then 0.0 else WrittenSum(blocks, n - 1, etp, s, p, i) + BlocksSum(blocks[n - 1], 0, etp, s, p, i)
  }

  lemma {:induction false} FilesSumIsWritten(files: seq<seq<Word>>, table: map<Key, seq<int>>, blocks: seq<seq<Block>>,
                                             etp: EventPeriods, keys: seq<Key>, n: nat, s: nat, p: nat, i: nat)
    requires n <= |blocks|
    requires forall f: nat :: f < n ==> FileSum(files, table, keys, f, s, p, i) == BlocksSum(blocks[f], 0, etp, s, p, i)
    ensures FilesSum(files, table, keys, n, s, p, i) == WrittenSum(blocks, n, etp, s, p, i)
  {
    if n > 0 { FilesSumIsWritten(files, table, blocks, etp, keys, n - 1, s, p, i); }
  }

  lemma FileSumIsWritten(files: seq<seq<Word>>, blocks: seq<Block>, etp: EventPeriods, keys: seq<Key>, f: nat,
                         s: nat, p: nat, i: nat)
    requires f < |files| && IsStream(files[f], blocks)
    requires forall k :: k in keys <==> k in FilesTable(AllHeads(files), etp, |files|)
    ensures FileSum(files, FilesTable(AllHeads(files), etp, |files|), keys, f, s, p, i)
            == BlocksSum(blocks, 0, etp, s, p, i)
  {
    TableSum(files, AllHeads(files), etp, |files|, f, s, p, i);
    RescanFindsBlocks(files[f], blocks);
    HeadsAreBlocks(files[f], blocks, 0, etp, s, p, i);
  }

  /**
    End to end, for all files: the cell that the walk adds up for a summary, period and sample
    is the sum of the losses written for that summary to any of the streams, once for every
    occurrence of their event in the period; and the lines are in the order the walk needs.
  */
  lemma WalkAddsUpTheStreams(files: seq<seq<Word>>, blocks: seq<seq<Block>>, etp: EventPeriods, keys: seq<Key>,
                             s: nat, p: nat, i: nat)
    requires |blocks| == |files| && forall f :: 0 <= f < |files| ==> IsStream(files[f], blocks[f])
    requires Ascending(keys) && forall k :: k in keys <==> k in FilesTable(AllHeads(files), etp, |files|)
    requires forall k :: k in keys ==> k.summary_id >= 0 && k.period_no >= 0
    ensures var lines := LinesOf(files, FilesTable(AllHeads(files), etp, |files|), keys);
            InOrder(lines) && CellSum(lines, s, p, i) == WrittenSum(blocks, |blocks|, etp, s, p, i)
  {
    var table := FilesTable(AllHeads(files), etp, |files|);
    LinesInOrder(files, table, keys);
    forall k | k in keys ensures 0 <= k.fileindex < |files| { TableFiles(AllHeads(files), etp, |files|, k); }
    LinesSum(files, table, keys, |files|, s, p, i);
    forall f: nat | f < |files|
      ensures FileSum(files, table, keys, f, s, p, i) == BlocksSum(blocks[f], 0, etp, s, p, i)
    {
      FileSumIsWritten(files, blocks[f], etp, keys, f, s, p, i);
    }
    FilesSumIsWritten(files, table, blocks, etp, keys, |files|, s, p, i);
  }

  lemma RescanFindsBlocks(words: seq<Word>, blocks: seq<Block>)
    requires IsStream(words, blocks)
    ensures Heads(words, 3) == BlockHeads(blocks, 0)
  {
    StreamHeads(words, blocks, 0);
    assert blocks[..0] == [] && StartOf(blocks, 0) == 3;
  }
}
