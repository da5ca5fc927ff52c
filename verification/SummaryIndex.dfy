/**
  The summary stream with the index written beside it, and the two ways of indexing it by
  summary and period: rescanning the stream, and trusting the index.

  A stream is a sequence of 4-byte words: three of preamble, then for every summary of an
  event a header of three words, records of two, and the record with sidx 0 that ends the
  list. Offsets are in bytes.
*/
module SummaryIndex {

  datatype Word = Int(i: int) | Float(f: real)

  function IntOf(w: Word): int { if w.Int? then w.i else 0 }
  function FloatOf(w: Word): real { if w.Float? then w.f else 0.0 }

  const WORD: int := 4

  /** A sample of a summary. */
  datatype SampleRec = SampleRec(sidx: int, loss: real)

  /** One summary of one event, as it stands in the stream. */
  datatype Block = Block(event_id: int, summary_id: int, expval: real, recs: seq<SampleRec>)

  // ---------- the words of a block ----------

  function HeaderWords(b: Block): seq<Word> { [Int(b.event_id), Int(b.summary_id), Float(b.expval)] }

  function RecWords(recs: seq<SampleRec>): seq<Word> {
    if recs == [] then []
    else RecWords(recs[..|recs| - 1]) + [Int(recs[|recs| - 1].sidx), Float(recs[|recs| - 1].loss)]
  }

  const SENTINEL: seq<Word> := [Int(0), Float(0.0)]

  function BlockWords(b: Block): seq<Word> { HeaderWords(b) + RecWords(b.recs) + SENTINEL }

  function BlocksWords(blocks: seq<Block>): seq<Word> {
    if blocks == [] then [] else BlocksWords(blocks[..|blocks| - 1]) + BlockWords(blocks[|blocks| - 1])
  }

  function Preamble(streamtype: int, sample_size: int, summary_set: int): seq<Word> {
    [Int(streamtype), Int(sample_size), Int(summary_set)]
  }

  lemma {:induction false} RecWordsLength(recs: seq<SampleRec>)
    ensures |RecWords(recs)| == 2 * |recs|
  {
    if recs != [] { RecWordsLength(recs[..|recs| - 1]); }
  }

  lemma RecWordsSnoc(recs: seq<SampleRec>, r: SampleRec)
    ensures RecWords(recs + [r]) == RecWords(recs) + [Int(r.sidx), Float(r.loss)]
    ensures recs + [] == recs
  {
    assert (recs + [r])[..|recs|] == recs;
  }

  // ---------- the writer ----------

  /** What outputsummaryset knows of a summary: its exposure and its losses, by sidx + 2. */
  datatype Losses = Losses(summary_id: int, expval: real, ssl: seq<real>)

  /** The samples that are written: the mean and samples 1 on; with losses only, unless zeros are asked for. */
  function Emitted(ssl: seq<real>, zerooutput: bool, n: nat): seq<SampleRec>
    requires n <= |ssl|
  {
    if n == 0 then []
    else
      Emitted(ssl, zerooutput, n - 1)
      + if n - 1 != 2 && n - 1 != 0 && (zerooutput || ssl[n - 1] > 0.0) then [SampleRec(n - 3, ssl[n - 1])] else []
  }

  /** The blocks of an event. */
  function EventBlocks(event_id: int, summaries: seq<Losses>, zerooutput: bool): seq<Block> {
    if summaries == [] then []
    else
      var s := summaries[|summaries| - 1];
      EventBlocks(event_id, summaries[..|summaries| - 1], zerooutput)
      + if s.expval > 0.0 || zerooutput
        then [Block(event_id, s.summary_id, s.expval, Emitted(s.ssl, zerooutput, |s.ssl|))] else []
  }

  /** The index: where each block starts. */
  function IndexOf(blocks: seq<Block>, start: int): seq<(int, int)> {
    if blocks == [] then []
    else
      var before := blocks[..|blocks| - 1];
      IndexOf(before, start) + [(blocks[|blocks| - 1].summary_id, start + WORD * |BlocksWords(before)|)]
  }

  class SummarySet {
    var stream: seq<Word>
    var offset: int
    var idx: seq<(int, int)>   // lines of the index file
    const zerooutput: bool
    ghost var blocks: seq<Block>
    ghost const preamble: seq<Word>

    ghost predicate Valid()
      reads this
    {
      Tracks(preamble, blocks, stream, offset, idx)
    }

    /** outputstreamtype and outputsamplesizeandsummaryset. */
    constructor (streamtype: int, sample_size: int, summary_set: int, zerooutput: bool)
      ensures Valid() && blocks == [] && this.zerooutput == zerooutput
      ensures preamble == Preamble(streamtype, sample_size, summary_set)
    {
      stream := Preamble(streamtype, sample_size, summary_set);
      offset := WORD * 3;
      idx := [];
      this.zerooutput := zerooutput;
      blocks, preamble := [], Preamble(streamtype, sample_size, summary_set);
    }

    /** fwrite, and the count of what has been written. */
    method Write(words: seq<Word>)
      modifies this`stream, this`offset
      ensures stream == old(stream) + words && offset == old(offset) + WORD * |words|
    {
      stream := stream + words;
      offset := offset + WORD * |words|;
    }

    /** The loop over the samples of one summary. */
    method WriteSamples(ssl: seq<real>)
      modifies this`stream, this`offset
      ensures stream == old(stream) + RecWords(Emitted(ssl, zerooutput, |ssl|))
      ensures offset == old(offset) + WORD * (|stream| - |old(stream)|)
    {
      for j := 0 to |ssl|
        invariant stream == old(stream) + RecWords(Emitted(ssl, zerooutput, j))
        invariant offset == old(offset) + WORD * (|stream| - |old(stream)|)
      {
        SampleSnoc(ssl, zerooutput, j, old(stream), stream);
        WriteSample(j, ssl[j]);
      }
    }

    /** One sample, if it is written at all: sidx 0 and -2 are not used. */
    method WriteSample(j: nat, loss: real)
      modifies this`stream, this`offset
      ensures stream == old(stream) + if j != 2 && j != 0 && (zerooutput || loss > 0.0)
                                      then [Int(j - 2), Float(loss)] else []
      ensures offset == old(offset) + WORD * (|stream| - |old(stream)|)
    {
      if j != 2 {
        var sidx := j - 2;
        if sidx != -2 {
          if zerooutput == false {
            if loss > 0.0 { Write([Int(sidx), Float(loss)]); }
          } else {
            Write([Int(sidx), Float(loss)]);
          }
        }
      }
    }

    /** One summary: its line of the index, its header, its samples and the end of its list. */
    method WriteBlock(event_id: int, s: Losses)
      requires Valid()
      modifies this
      ensures Valid()
      ensures blocks == old(blocks) + [Block(event_id, s.summary_id, s.expval, Emitted(s.ssl, zerooutput, |s.ssl|))]
    {
      ghost var b := Block(event_id, s.summary_id, s.expval, Emitted(s.ssl, zerooutput, |s.ssl|));
      EmittedNonZero(s.ssl, zerooutput, |s.ssl|);
      BlockAppended(preamble, blocks, stream, offset, idx, b);
      idx := idx + [(s.summary_id, offset)];
      Write([Int(event_id), Int(s.summary_id), Float(s.expval)]);
      WriteSamples(s.ssl);
      Write(SENTINEL);
      blocks := blocks + [b];
    }

    method OutputSummarySet(event_id: int, summaries: seq<Losses>)
      requires Valid()
      modifies this
      ensures Valid() && blocks == old(blocks) + EventBlocks(event_id, summaries, zerooutput)
      ensures IsStream(stream, blocks) && idx == IndexOf(blocks, WORD * 3)
    {
      for i := 0 to |summaries|
        invariant Valid() && blocks == old(blocks) + EventBlocks(event_id, summaries[..i], zerooutput)
      {
        EventSnoc(event_id, summaries, i, zerooutput, old(blocks), blocks);
        var s := summaries[i];
        if s.expval > 0.0 || zerooutput == true { WriteBlock(event_id, s); }
      }
      assert summaries[..|summaries|] == summaries;
    }
  }

  lemma SampleSnoc(ssl: seq<real>, zerooutput: bool, j: nat, start: seq<Word>, stream: seq<Word>)
    requires j < |ssl| && stream == start + RecWords(Emitted(ssl, zerooutput, j))
    ensures start + RecWords(Emitted(ssl, zerooutput, j + 1))
            == stream + if j != 2 && j != 0 && (zerooutput || ssl[j] > 0.0) then [Int(j - 2), Float(ssl[j])] else []
  {
    RecWordsSnoc(Emitted(ssl, zerooutput, j), SampleRec(j - 2, ssl[j]));
  }

  lemma EventSnoc(event_id: int, summaries: seq<Losses>, i: nat, zerooutput: bool, start: seq<Block>,
                  blocks: seq<Block>)
    requires i < |summaries| && blocks == start + EventBlocks(event_id, summaries[..i], zerooutput)
    ensures var s := summaries[i];
            start + EventBlocks(event_id, summaries[..i + 1], zerooutput)
            == if s.expval > 0.0 || zerooutput
               then blocks + [Block(event_id, s.summary_id, s.expval, Emitted(s.ssl, zerooutput, |s.ssl|))] else blocks
  {
    assert summaries[..i + 1][..i] == summaries[..i];
  }

  lemma BlocksSnoc(blocks: seq<Block>, b: Block)
    ensures BlocksWords(blocks + [b]) == BlocksWords(blocks) + BlockWords(b)
  {
    assert (blocks + [b])[..|blocks|] == blocks;
  }

  lemma IndexSnoc(blocks: seq<Block>, b: Block, start: int)
    ensures IndexOf(blocks + [b], start)
            == IndexOf(blocks, start) + [(b.summary_id, start + WORD * |BlocksWords(blocks)|)]
  {
    var all := blocks + [b];
    assert all[..|all| - 1] == blocks;
    assert all[|all| - 1] == b;
  }

  lemma Regroup(a: seq<Word>, b: seq<Word>, h: seq<Word>, r: seq<Word>, z: seq<Word>)
    ensures a + (b + (h + r + z)) == a + b + h + r + z
  {}

  /** Stream, offset and index are those of the blocks. */
  ghost predicate Tracks(preamble: seq<Word>, blocks: seq<Block>, stream: seq<Word>, offset: int,
                         idx: seq<(int, int)>) {
    && |preamble| == 3
    && stream == preamble + BlocksWords(blocks) && offset == WORD * |stream|
    && idx == IndexOf(blocks, WORD * 3)
    && AllNonZero(blocks)
  }

  ghost predicate AllNonZero(blocks: seq<Block>) { forall k :: 0 <= k < |blocks| ==> NonZeroSidx(blocks[k].recs) }

  /** What they should be after one more block. */
  lemma BlockAppended(preamble: seq<Word>, blocks: seq<Block>, stream: seq<Word>, offset: int,
                      idx: seq<(int, int)>, b: Block)
    requires Tracks(preamble, blocks, stream, offset, idx) && NonZeroSidx(b.recs)
    ensures var after := stream + HeaderWords(b) + RecWords(b.recs) + SENTINEL;
            Tracks(preamble, blocks + [b], after, WORD * |after|, idx + [(b.summary_id, offset)])
  {
    BlocksSnoc(blocks, b);
    IndexSnoc(blocks, b, WORD * 3);
    Regroup(preamble, BlocksWords(blocks), HeaderWords(b), RecWords(b.recs), SENTINEL);
    AllNonZeroSnoc(blocks, b);
  }

  lemma AllNonZeroSnoc(blocks: seq<Block>, b: Block)
    requires AllNonZero(blocks) && NonZeroSidx(b.recs)
    ensures AllNonZero(blocks + [b])
  {}

  // ---------- reading ----------

  /** The samples from a position to the end of their list, and the position after it. */
  function RecsFrom(words: seq<Word>, pos: nat): seq<SampleRec>
    decreases |words| - pos
  {
    if pos + 2 > |words| || IntOf(words[pos]) == 0 then []
    else [SampleRec(IntOf(words[pos]), FloatOf(words[pos + 1]))] + RecsFrom(words, pos + 2)
  }

  function EndFrom(words: seq<Word>, pos: nat): (r: nat)
    requires pos <= |words|
    ensures pos <= r <= |words|
    decreases |words| - pos
  {
    if pos + 2 > |words| then |words|
    else if IntOf(words[pos]) == 0 then pos + 2
    else EndFrom(words, pos + 2)
  }

  /** A header found in a stream. */
  datatype Head = Head(offset: int, event_id: int, summary_id: int)

  function HeadAt(words: seq<Word>, pos: nat): Head
    requires pos + 3 <= |words|
  {
    Head(WORD * pos, IntOf(words[pos]), IntOf(words[pos + 1]))
  }

  function Heads(words: seq<Word>, pos: nat): seq<Head>
    requires pos <= |words|
    decreases |words| - pos
  {
    if pos + 3 > |words| then [] else [HeadAt(words, pos)] + Heads(words, EndFrom(words, pos + 3))
  }

  /** aalcalc's read of one summary: seek, header, samples. */
  method ReadSummary(words: seq<Word>, offset: nat) returns (recs: seq<SampleRec>)
    requires offset % WORD == 0
    ensures offset / WORD + 3 <= |words| ==> recs == RecsFrom(words, offset / WORD + 3)
  {
    recs := [];
    var pos := offset / WORD;
    if pos + 3 <= |words| {
      pos := pos + 3;
      ghost var start := pos;
      while pos + 2 <= |words|
        invariant start <= pos && recs + RecsFrom(words, pos) == RecsFrom(words, start)
        decreases |words| - pos
      {
        var sidx := IntOf(words[pos]);
        if sidx == 0 { break; }
        RecsStep(words, pos, recs);
        recs := recs + [SampleRec(sidx, FloatOf(words[pos + 1]))];
        pos := pos + 2;
      }
      assert recs + [] == recs;
    }
  }

  lemma RecsStep(words: seq<Word>, pos: nat, recs: seq<SampleRec>)
    requires pos + 2 <= |words| && IntOf(words[pos]) != 0
    ensures recs + RecsFrom(words, pos)
            == recs + [SampleRec(IntOf(words[pos]), FloatOf(words[pos + 1]))] + RecsFrom(words, pos + 2)
  {}

  // ---------- the map of offsets ----------

  datatype Key = Key(summary_id: int, period_no: int, fileindex: int)

  /** push_back, making the vector where there is none. */
  function Pushed(table: map<Key, seq<int>>, k: Key, offset: int): map<Key, seq<int>> {
    table[k := (if k in table then table[k] else []) + [offset]]
  }

  /** One offset under every period of an event. */
  function PushPeriods(table: map<Key, seq<int>>, summary_id: int, file_id: int, offset: int, periods: seq<int>)
    : map<Key, seq<int>>
  {
    if periods == [] then table
    else
      var n := |periods| - 1;
      Pushed(PushPeriods(table, summary_id, file_id, offset, periods[..n]), Key(summary_id, periods[n], file_id),
             offset)
  }

  method PushAll(table0: map<Key, seq<int>>, summary_id: int, file_id: int, offset: int, periods: seq<int>)
      returns (table: map<Key, seq<int>>)
    ensures table == PushPeriods(table0, summary_id, file_id, offset, periods)
  {
    table := table0;
    for i := 0 to |periods|
      invariant table == PushPeriods(table0, summary_id, file_id, offset, periods[..i])
    {
      assert periods[..i + 1][..i] == periods[..i];
      table := Pushed(table, Key(summary_id, periods[i], file_id), offset);
    }
    assert periods[..|periods|] == periods;
  }

  type EventPeriods = map<int, seq<int>>

  /** Headers indexed in turn; those of events without periods are skipped. */
  function Indexed(table: map<Key, seq<int>>, heads: seq<Head>, file_id: int, etp: EventPeriods): map<Key, seq<int>>
    decreases |heads|
  {
    if heads == [] then table
    else
      var h := heads[0];
      Indexed(if h.event_id in etp then PushPeriods(table, h.summary_id, file_id, h.offset, etp[h.event_id]) else table,
              heads[1..], file_id, etp)
  }

  predicate AllHavePeriods(heads: seq<Head>, etp: EventPeriods) {
    forall i :: 0 <= i < |heads| ==> heads[i].event_id in etp
  }

  datatype Result<T> = Ok(value: T) | MissingEvent(event_id: int)

  /** indexevents by rescanning: an event without periods is an exception. */
  method IndexEventsFromStream(words: seq<Word>, table0: map<Key, seq<int>>, file_id: int, etp: EventPeriods)
      returns (r: Result<map<Key, seq<int>>>)
    requires |words| >= 3
    ensures AllHavePeriods(Heads(words, 3), etp) ==> r == Ok(Indexed(table0, Heads(words, 3), file_id, etp))
    ensures !AllHavePeriods(Heads(words, 3), etp) ==> r.MissingEvent? && r.event_id !in etp
  {
    var table, pos := table0, 3;
    while pos + 3 <= |words|
      invariant 3 <= pos <= |words|
      invariant AllHavePeriods(Heads(words, pos), etp) <==> AllHavePeriods(Heads(words, 3), etp)
      invariant Indexed(table, Heads(words, pos), file_id, etp) == Indexed(table0, Heads(words, 3), file_id, etp)
      decreases |words| - pos
    {
      var h := HeadAt(words, pos);
      HeadsStep(words, pos, table, file_id, etp);
      if h.event_id !in etp { return MissingEvent(h.event_id); }
      table := PushAll(table, h.summary_id, file_id, WORD * pos, etp[h.event_id]);
      pos := SkipSamples(words, pos + 3);
    }
    r := Ok(table);
  }

  /** The loop over the samples, which only moves the offset. */
  method SkipSamples(words: seq<Word>, pos0: nat) returns (pos: nat)
    requires pos0 <= |words|
    ensures pos == EndFrom(words, pos0)
  {
    pos := pos0;
    while pos + 2 <= |words|
      invariant pos <= |words| && EndFrom(words, pos) == EndFrom(words, pos0)
      decreases |words| - pos
    {
      var sidx := IntOf(words[pos]);
      pos := pos + 2;
      if sidx == 0 { return; }
    }
    pos := |words|;
  }

  lemma HeadsStep(words: seq<Word>, pos: nat, table: map<Key, seq<int>>, file_id: int, etp: EventPeriods)
    requires pos + 3 <= |words|
    ensures var h, rest := HeadAt(words, pos), Heads(words, EndFrom(words, pos + 3));
            (AllHavePeriods(Heads(words, pos), etp) <==> h.event_id in etp && AllHavePeriods(rest, etp))
            && Indexed(table, Heads(words, pos), file_id, etp)
               == Indexed(if h.event_id in etp
                          then PushPeriods(table, h.summary_id, file_id, h.offset, etp[h.event_id]) else table,
                          rest, file_id, etp)
  {
    var h, rest := HeadAt(words, pos), Heads(words, EndFrom(words, pos + 3));
    assert ([h] + rest)[1..] == rest;
    AllCons(h, rest, etp);
  }

  lemma AllCons(h: Head, rest: seq<Head>, etp: EventPeriods)
    ensures AllHavePeriods([h] + rest, etp) <==> h.event_id in etp && AllHavePeriods(rest, etp)
  {
    var heads := [h] + rest;
    assert heads[0] == h;
    assert forall i :: 0 <= i < |rest| ==> rest[i] == heads[i + 1];
    assert forall i :: 1 <= i < |heads| ==> heads[i] == rest[i - 1];
  }

  /** The header a line of the index points to; the summary id is taken from the line. */
  function LineHead(words: seq<Word>, line: (int, int)): Head {
    var pos := line.1 / WORD;
    Head(line.1, if 0 <= pos && pos + 3 <= |words| then IntOf(words[pos]) else 0, line.0)
  }

  function LineHeads(words: seq<Word>, idx: seq<(int, int)>): (r: seq<Head>)
    ensures |r| == |idx| && forall i :: 0 <= i < |idx| ==> r[i] == LineHead(words, idx[i])
  {
    seq(|idx|, i requires 0 <= i < |idx| => LineHead(words, idx[i]))
  }

  /** indexevents from the index file: an event without periods is skipped. */
  method IndexEventsFromIndex(words: seq<Word>, idx: seq<(int, int)>, table0: map<Key, seq<int>>, file_id: int,
                              etp: EventPeriods)
      returns (table: map<Key, seq<int>>)
    ensures table == Indexed(table0, LineHeads(words, idx), file_id, etp)
  {
    table := table0;
    ghost var heads := LineHeads(words, idx);
    for i := 0 to |idx|
      invariant Indexed(table, heads[i..], file_id, etp) == Indexed(table0, heads, file_id, etp)
    {
      var h := LineHead(words, idx[i]);
      assert heads[i..][0] == h && heads[i..][1..] == heads[i + 1..];
      if h.event_id !in etp { continue; }
      table := PushAll(table, h.summary_id, file_id, h.offset, etp[h.event_id]);
    }
  }

  // ---------- the stream of the writer ----------

  /** The stream holds these words from this position on. */
  ghost predicate Contains(words: seq<Word>, pos: nat, part: seq<Word>) {
    pos + |part| <= |words| && words[pos..pos + |part|] == part
  }

  lemma ContainsAt(words: seq<Word>, pos: nat, part: seq<Word>, i: nat)
    requires Contains(words, pos, part) && i < |part|
    ensures words[pos + i] == part[i]
  {
    assert words[pos..pos + |part|][i] == part[i];
  }

  lemma ContainsPart(words: seq<Word>, pos: nat, a: seq<Word>, b: seq<Word>)
    requires Contains(words, pos, a + b)
    ensures Contains(words, pos, a) && Contains(words, pos + |a|, b)
  {
    var all := words[pos..pos + |a + b|];
    assert all[..|a|] == a && all[|a|..] == b;
  }

  lemma {:induction false} RecWordsAt(recs: seq<SampleRec>, k: nat)
    requires k < |recs|
    ensures |RecWords(recs)| == 2 * |recs|
    ensures RecWords(recs)[2 * k] == Int(recs[k].sidx) && RecWords(recs)[2 * k + 1] == Float(recs[k].loss)
  {
    var n := |recs| - 1;
    RecWordsLength(recs[..n]);
    RecWordsLength(recs);
    if k < n { RecWordsAt(recs[..n], k); }
  }

  ghost predicate NonZeroSidx(recs: seq<SampleRec>) { forall i :: 0 <= i < |recs| ==> recs[i].sidx != 0 }

  /** Reading from sample k of a list gives the rest of the list and stops at its end. */
  lemma {:induction false} ReadsRecs(words: seq<Word>, pos: nat, recs: seq<SampleRec>, k: nat)
    requires Contains(words, pos, RecWords(recs) + SENTINEL) && NonZeroSidx(recs) && k <= |recs|
    ensures |RecWords(recs)| == 2 * |recs| && pos + 2 * |recs| + 2 <= |words|
    ensures RecsFrom(words, pos + 2 * k) == recs[k..] && EndFrom(words, pos + 2 * k) == pos + 2 * |recs| + 2
    decreases |recs| - k
  {
    RecWordsLength(recs);
    var part := RecWords(recs) + SENTINEL;
    if k < |recs| {
      RecWordsAt(recs, k);
      ContainsAt(words, pos, part, 2 * k);
      ContainsAt(words, pos, part, 2 * k + 1);
      ReadsRecs(words, pos, recs, k + 1);
      assert recs[k..] == [recs[k]] + recs[k + 1..];
    } else {
      ContainsAt(words, pos, part, 2 * k);
    }
  }

  /** A block is read as it was written. */
  lemma ReadsBlock(words: seq<Word>, pos: nat, b: Block)
    requires Contains(words, pos, BlockWords(b)) && NonZeroSidx(b.recs)
    ensures pos + 3 <= |words| && HeadAt(words, pos) == Head(WORD * pos, b.event_id, b.summary_id)
    ensures RecsFrom(words, pos + 3) == b.recs && EndFrom(words, pos + 3) == pos + |BlockWords(b)|
  {
    var h, rest := HeaderWords(b), RecWords(b.recs) + SENTINEL;
    assert BlockWords(b) == h + rest;
    ContainsPart(words, pos, h, rest);
    ContainsAt(words, pos, h, 0);
    ContainsAt(words, pos, h, 1);
    ReadsRecs(words, pos + 3, b.recs, 0);
    assert b.recs[0..] == b.recs;
  }

  function StartOf(blocks: seq<Block>, k: nat): nat
    requires k <= |blocks|
  {
    3 + |BlocksWords(blocks[..k])|
  }

  lemma StartNext(blocks: seq<Block>, k: nat)
    requires k < |blocks|
    ensures BlocksWords(blocks[..k + 1]) == BlocksWords(blocks[..k]) + BlockWords(blocks[k])
    ensures StartOf(blocks, k + 1) == StartOf(blocks, k) + |BlockWords(blocks[k])|
  {
    assert blocks[..k + 1] == blocks[..k] + [blocks[k]];
    BlocksSnoc(blocks[..k], blocks[k]);
  }

  /** The words of the first blocks come first. */
  lemma {:induction false} BlocksPrefix(blocks: seq<Block>, k: nat)
    requires k <= |blocks|
    ensures BlocksWords(blocks[..k]) <= BlocksWords(blocks)
  {
    if k == |blocks| {
      assert blocks[..k] == blocks;
    } else {
      var n := |blocks| - 1;
      BlocksPrefix(blocks[..n], k);
      assert blocks[..n][..k] == blocks[..k];
    }
  }

  lemma BlockAt(blocks: seq<Block>, k: nat)
    requires k < |blocks|
    ensures Contains(BlocksWords(blocks), |BlocksWords(blocks[..k])|, BlockWords(blocks[k]))
  {
    StartNext(blocks, k);
    BlocksPrefix(blocks, k + 1);
    InPrefix(BlocksWords(blocks), BlocksWords(blocks[..k]), BlockWords(blocks[k]));
  }

  lemma InPrefix(all: seq<Word>, a: seq<Word>, b: seq<Word>)
    requires a + b <= all
    ensures Contains(all, |a|, b)
  {
    assert all[..|a + b|] == a + b;
    assert all[|a|..|a| + |b|] == all[..|a + b|][|a|..];
  }

  /** A stream as the writer leaves it. */
  ghost predicate IsStream(words: seq<Word>, blocks: seq<Block>) {
    |words| >= 3 && words[3..] == BlocksWords(blocks) && AllNonZero(blocks)
  }

  lemma StreamBlock(words: seq<Word>, blocks: seq<Block>, k: nat)
    requires IsStream(words, blocks) && k < |blocks|
    ensures Contains(words, StartOf(blocks, k), BlockWords(blocks[k]))
    ensures StartOf(blocks, k + 1) == StartOf(blocks, k) + |BlockWords(blocks[k])|
  {
    BlockAt(blocks, k);
    StartNext(blocks, k);
    var at, part := |BlocksWords(blocks[..k])|, BlockWords(blocks[k]);
    assert words[3..][at..at + |part|] == words[3 + at..3 + at + |part|];
  }

  /** The headers of the blocks from the k-th on. */
  function BlockHeads(blocks: seq<Block>, k: nat): seq<Head>
    requires k <= |blocks|
    decreases |blocks| - k
  {
    if k == |blocks| then []
    else [Head(WORD * StartOf(blocks, k), blocks[k].event_id, blocks[k].summary_id)] + BlockHeads(blocks, k + 1)
  }

  lemma {:induction false} StreamHeads(words: seq<Word>, blocks: seq<Block>, k: nat)
    requires IsStream(words, blocks) && k <= |blocks|
    ensures StartOf(blocks, k) <= |words| && Heads(words, StartOf(blocks, k)) == BlockHeads(blocks, k)
    decreases |blocks| - k
  {
    if k < |blocks| {
      StreamHeads(words, blocks, k + 1);
      NextHead(words, blocks, k, StartOf(blocks, k), StartOf(blocks, k + 1));
    } else {
      assert blocks[..k] == blocks;
    }
  }

  lemma NextHead(words: seq<Word>, blocks: seq<Block>, k: nat, pos: nat, next: nat)
    requires IsStream(words, blocks) && k < |blocks| && pos == StartOf(blocks, k) && next == StartOf(blocks, k + 1)
    requires next <= |words|
    ensures pos + 3 <= |words| && EndFrom(words, pos + 3) == next
    ensures HeadAt(words, pos) == Head(WORD * pos, blocks[k].event_id, blocks[k].summary_id)
  {
    StreamBlock(words, blocks, k);
    ReadsBlock(words, pos, blocks[k]);
  }

  lemma {:induction false} IndexAt(blocks: seq<Block>, k: nat)
    requires k < |blocks|
    ensures |IndexOf(blocks, WORD * 3)| == |blocks|
    ensures IndexOf(blocks, WORD * 3)[k] == (blocks[k].summary_id, WORD * StartOf(blocks, k))
  {
    var n := |blocks| - 1;
    if n > 0 { IndexAt(blocks[..n], if k < n then k else 0); }
    if k < n { assert blocks[..n][..k] == blocks[..k]; }
  }

  /**
    Every line of the index is right: at its offset stands the header of its summary, and
    reading on from there gives exactly the samples written for it.
  */
  lemma IndexIsRight(words: seq<Word>, blocks: seq<Block>, k: nat)
    requires IsStream(words, blocks) && k < |blocks|
    ensures |IndexOf(blocks, WORD * 3)| == |blocks|
    ensures var (summary_id, offset) := IndexOf(blocks, WORD * 3)[k];
            var pos := StartOf(blocks, k);
            offset == WORD * pos && pos + 3 <= |words|
            && HeadAt(words, pos) == Head(offset, blocks[k].event_id, summary_id)
            && RecsFrom(words, pos + 3) == blocks[k].recs
  {
    IndexAt(blocks, k);
    StreamBlock(words, blocks, k);
    ReadsBlock(words, StartOf(blocks, k), blocks[k]);
  }

  lemma {:induction false} BlockHeadsAt(blocks: seq<Block>, k: nat, i: nat)
    requires k <= i < |blocks|
    ensures |BlockHeads(blocks, k)| == |blocks| - k
    ensures BlockHeads(blocks, k)[i - k] == Head(WORD * StartOf(blocks, i), blocks[i].event_id, blocks[i].summary_id)
    decreases |blocks| - k
  {
    if k < i {
      BlockHeadsAt(blocks, k + 1, i);
    } else if k + 1 < |blocks| {
      BlockHeadsAt(blocks, k + 1, k + 1);
    }
  }

  /** The lines of the index lead to the headers a rescan finds. */
  lemma IndexMatchesRescan(words: seq<Word>, blocks: seq<Block>)
    requires IsStream(words, blocks)
    ensures LineHeads(words, IndexOf(blocks, WORD * 3)) == Heads(words, 3)
  {
    StreamHeads(words, blocks, 0);
    assert blocks[..0] == [] && StartOf(blocks, 0) == 3;
    assert Heads(words, 3) == BlockHeads(blocks, 0);
    var idx := IndexOf(blocks, WORD * 3);
    if blocks != [] {
      IndexAt(blocks, 0);
      BlockHeadsAt(blocks, 0, 0);
      forall k: nat | k < |blocks| ensures LineHead(words, idx[k]) == BlockHeads(blocks, 0)[k] {
        LineIsHead(words, blocks, k);
        BlockHeadsAt(blocks, 0, k);
      }
      assert LineHeads(words, idx) == BlockHeads(blocks, 0);
    }
  }

  lemma LineIsHead(words: seq<Word>, blocks: seq<Block>, k: nat)
    requires IsStream(words, blocks) && k < |blocks| == |IndexOf(blocks, WORD * 3)|
    ensures LineHead(words, IndexOf(blocks, WORD * 3)[k])
            == Head(WORD * StartOf(blocks, k), blocks[k].event_id, blocks[k].summary_id)
  {
    IndexAt(blocks, k);
    IndexIsRight(words, blocks, k);
    WordOffset(StartOf(blocks, k));
  }

  lemma WordOffset(pos: nat)
    ensures (WORD * pos) / WORD == pos
  {}

  lemma {:induction false} EmittedNonZero(ssl: seq<real>, zerooutput: bool, n: nat)
    requires n <= |ssl|
    ensures NonZeroSidx(Emitted(ssl, zerooutput, n))
  {
    if n > 0 { EmittedNonZero(ssl, zerooutput, n - 1); }
  }

  /**
    Both ways of indexing agree: where the rescan does not fail, which is where every event
    has periods, it builds the map that the index file leads to.
  */
  method BothIndexes(words: seq<Word>, idx: seq<(int, int)>, ghost blocks: seq<Block>, table0: map<Key, seq<int>>,
                     file_id: int, etp: EventPeriods)
      returns (rescan: Result<map<Key, seq<int>>>, fromIndex: map<Key, seq<int>>)
    requires IsStream(words, blocks) && idx == IndexOf(blocks, WORD * 3)
    ensures AllHavePeriods(Heads(words, 3), etp) ==> rescan == Ok(fromIndex)
    ensures !AllHavePeriods(Heads(words, 3), etp) ==> rescan.MissingEvent?
  {
    IndexMatchesRescan(words, blocks);
    rescan := IndexEventsFromStream(words, table0, file_id, etp);
    fromIndex := IndexEventsFromIndex(words, idx, table0, file_id, etp);
  }
}
