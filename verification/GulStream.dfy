/**
  The item stream: gulcalc's buffered writer, gultocsv's reader, and when the reader gives
  back what was written.

  The stream is made of cells of two 32-bit words: a header (event, item), a record (sidx,
  loss), or the record with sidx 0 that ends a list. A loss is the word it is stored in.
*/
module GulStream {

  datatype Cell = Cell(first: int, second: int)

  datatype Rec = Rec(event_id: int, item_id: int, sidx: int, loss: int)

  function KeyOf(r: Rec): Cell { Cell(r.event_id, r.item_id) }

  const NULL_CELL: Cell := Cell(0, 0)

  // ---------- what is written ----------

  /** The header written last; before the first one it is all zeros. */
  function LastHeader(recs: seq<Rec>): Cell {
    if recs == [] then NULL_CELL else KeyOf(recs[|recs| - 1])
  }

  /** No header has been written yet. */
  predicate NoHeader(recs: seq<Rec>) { forall i :: 0 <= i < |recs| ==> KeyOf(recs[i]) == NULL_CELL }

  /** The cells of one more record. */
  function CellsOf(last: Cell, noHeader: bool, r: Rec): seq<Cell> {
    if KeyOf(r) != last
    then (if noHeader then [] else [NULL_CELL]) + [KeyOf(r), Cell(r.sidx, r.loss)]
    else [Cell(r.sidx, r.loss)]
  }

  function Encode(recs: seq<Rec>): seq<Cell> {
    if recs == [] then []
    else
      var before := recs[..|recs| - 1];
      Encode(before) + CellsOf(LastHeader(before), NoHeader(before), recs[|recs| - 1])
  }

  lemma EncodeSnoc(recs: seq<Rec>, r: Rec)
    ensures Encode(recs + [r]) == Encode(recs) + CellsOf(LastHeader(recs), NoHeader(recs), r)
  {
    assert (recs + [r])[..|recs|] == recs;
  }

  // ---------- the writer ----------

  const CELL_SIZE: int := 8
  const RECORD_SIZE: int := 16
  const BUFSIZE: int := RECORD_SIZE * 1000

  class ItemWriter {
    var ibuf: array<Cell>
    var itembufoffset: int
    var lastitemheader: Cell
    var isFirstItemEvent: bool
    var written: seq<Cell>     // what the output has been given
    ghost var recs: seq<Rec>   // what this writer has been given

    /** The buffer has room for one record more than the size at which it is flushed. */
    ghost predicate Room(limit: int)
      reads this
    {
      && ibuf.Length * CELL_SIZE == BUFSIZE + RECORD_SIZE
      && 0 <= itembufoffset <= limit && itembufoffset % CELL_SIZE == 0
    }

    ghost predicate Valid()
      reads this, ibuf
    {
      Room(BUFSIZE + RECORD_SIZE) && Tracks(recs, Stream(), lastitemheader, isFirstItemEvent)
    }

    /** Everything written so far: what has been flushed and what is in the buffer. */
    ghost function Stream(): seq<Cell>
      requires 0 <= itembufoffset && itembufoffset / CELL_SIZE <= ibuf.Length
      reads this, ibuf
    {
      written + ibuf[..itembufoffset / CELL_SIZE]
    }

    constructor ()
      ensures Valid() && recs == [] && fresh(ibuf)
    {
      ibuf := new Cell[(BUFSIZE + RECORD_SIZE) / CELL_SIZE];
      itembufoffset := 0;
      lastitemheader, isFirstItemEvent := NULL_CELL, true;
      written, recs := [], [];
    }

    /** Hand the buffer to the output. */
    method Flush()
      requires Valid()
      modifies this`written, this`itembufoffset
      ensures Valid() && itembufoffset == 0 && written == old(Stream())
    {
      written := written + ibuf[..itembufoffset / CELL_SIZE];
      itembufoffset := 0;
    }

    /** memcpy into the buffer. */
    method Put(c: Cell, ghost limit: int)
      requires Room(limit - CELL_SIZE) && limit <= BUFSIZE + RECORD_SIZE
      modifies this`itembufoffset, ibuf
      ensures Room(limit) && Stream() == old(Stream()) + [c]
    {
      ibuf[itembufoffset / CELL_SIZE] := c;
      itembufoffset := itembufoffset + CELL_SIZE;
    }

    /** A new event or item: the list before it is ended and its own header written. */
    method PutHeader(gg: Rec)
      requires Room(BUFSIZE - CELL_SIZE) && KeyOf(gg) != lastitemheader
      modifies this`itembufoffset, this`isFirstItemEvent, this`lastitemheader, ibuf
      ensures Room(BUFSIZE + CELL_SIZE) && lastitemheader == KeyOf(gg) && !isFirstItemEvent
      ensures Stream() == old(Stream()) + (if old(isFirstItemEvent) then [] else [NULL_CELL]) + [KeyOf(gg)]
    {
      if isFirstItemEvent == false {
        Put(NULL_CELL, BUFSIZE);
      } else {
        isFirstItemEvent := false;
      }
      lastitemheader := KeyOf(gg);
      Put(lastitemheader, BUFSIZE + CELL_SIZE);
    }

    /** itemoutputgul: no write ever leaves the buffer. */
    method ItemOutputGul(gg: Rec)
      requires Valid()
      modifies this, ibuf
      ensures Valid() && ibuf == old(ibuf) && recs == old(recs) + [gg]
    {
      if itembufoffset >= BUFSIZE { Flush(); }
      Append(gg);
    }

    method Append(gg: Rec)
      requires Valid() && itembufoffset < BUFSIZE
      modifies this, ibuf
      ensures Valid() && ibuf == old(ibuf) && recs == old(recs) + [gg]
    {
      OneMore(recs, gg, Stream(), lastitemheader, isFirstItemEvent);
      ghost var after := NextStream(Stream(), lastitemheader, isFirstItemEvent, gg);
      if gg.event_id != lastitemheader.first || gg.item_id != lastitemheader.second {
        PutHeader(gg);
      }
      Put(Cell(gg.sidx, gg.loss), BUFSIZE + RECORD_SIZE);
      assert Stream() == after;
      recs := recs + [gg];
    }

    /** The records of a whole run, and the final flush. */
    method WriteAll(all: seq<Rec>)
      requires Valid() && recs == []
      modifies this, ibuf
      ensures written == Encode(all)
    {
      for i := 0 to |all|
        invariant Valid() && recs == all[..i] && ibuf == old(ibuf)
      {
        ItemOutputGul(all[i]);
        assert all[..i + 1] == all[..i] + [all[i]];
      }
      assert all[..|all|] == all;
      Flush();
    }
  }

  /** The stream and the writer's notes are those of the records. */
  ghost predicate Tracks(recs: seq<Rec>, stream: seq<Cell>, last: Cell, noHeader: bool) {
    stream == Encode(recs) && last == LastHeader(recs) && noHeader == NoHeader(recs)
  }

  function NextStream(stream: seq<Cell>, last: Cell, noHeader: bool, r: Rec): seq<Cell> {
    (if KeyOf(r) == last then stream else stream + (if noHeader then [] else [NULL_CELL]) + [KeyOf(r)])
    + [Cell(r.sidx, r.loss)]
  }

  /** What the stream and the writer's notes should be after one more record. */
  lemma OneMore(recs: seq<Rec>, r: Rec, stream: seq<Cell>, last: Cell, noHeader: bool)
    requires Tracks(recs, stream, last, noHeader)
    ensures Tracks(recs + [r], NextStream(stream, last, noHeader, r), KeyOf(r), noHeader && KeyOf(r) == last)
  {
    EncodeSnoc(recs, r);
    NoHeaderSnoc(recs, r);
    NextIsEncoded(stream, last, noHeader, r);
  }

  lemma NextIsEncoded(stream: seq<Cell>, last: Cell, noHeader: bool, r: Rec)
    ensures NextStream(stream, last, noHeader, r) == stream + CellsOf(last, noHeader, r)
  {
    var c := Cell(r.sidx, r.loss);
    if KeyOf(r) != last {
      var end := if noHeader then [] else [NULL_CELL];
      assert stream + end + [KeyOf(r)] + [c] == stream + (end + [KeyOf(r), c]);
    }
  }

  lemma NoHeaderSnoc(recs: seq<Rec>, r: Rec)
    ensures NoHeader(recs + [r]) == (NoHeader(recs) && KeyOf(r) == NULL_CELL)
    ensures NoHeader(recs) ==> LastHeader(recs) == NULL_CELL
  {
    var all := recs + [r];
    assert all[|recs|] == r && forall i :: 0 <= i < |recs| ==> all[i] == recs[i];
  }

  // ---------- the lists of the stream ----------

  /** The cells of samples of one event and item. */
  function SampleCells(run: seq<Rec>): (c: seq<Cell>)
    ensures |c| == |run| && forall i :: 0 <= i < |run| ==> c[i].first == run[i].sidx && c[i].second == run[i].loss
  {
    seq(|run|, i requires 0 <= i < |run| => Cell(run[i].sidx, run[i].loss))
  }

  /**
    Consecutive records of one event and item make one list: the end of the list before, if
    there is one, their header once, and a cell for each.
  */
  lemma {:induction false} OneHeaderPerList(before: seq<Rec>, run: seq<Rec>, event_id: int, item_id: int)
    requires run != [] && forall i :: 0 <= i < |run| ==> run[i].event_id == event_id && run[i].item_id == item_id
    requires event_id != 0 && (forall i :: 0 <= i < |before| ==> before[i].event_id != 0)
    requires before != [] ==> before[|before| - 1].event_id != event_id || before[|before| - 1].item_id != item_id
    ensures Encode(before + run)
            == Encode(before) + (if before == [] then [] else [Cell(0, 0)]) + [Cell(event_id, item_id)]
               + SampleCells(run)
  {
    var n := |run| - 1;
    var r, all := run[n], before + run[..n];
    assert before + run == all + [r];
    EncodeSnoc(all, r);
    if n == 0 {
      assert all == before;
      assert before != [] ==> KeyOf(before[0]) != NULL_CELL;
    } else {
      OneHeaderPerList(before, run[..n], event_id, item_id);
      assert LastHeader(all) == KeyOf(r);
    }
    assert SampleCells(run) == SampleCells(run[..n]) + [Cell(r.sidx, r.loss)];
    Joined(Encode(before), if before == [] then [] else [NULL_CELL], KeyOf(r), SampleCells(run[..n]),
           Cell(r.sidx, r.loss));
  }

  lemma Joined(a: seq<Cell>, e: seq<Cell>, k: Cell, samples: seq<Cell>, c: Cell)
    ensures (a + e + [k] + samples) + [c] == a + e + [k] + (samples + [c])
    ensures samples == [] ==> a + (e + [k, c]) == a + e + [k] + (samples + [c])
  {}

  // ---------- the reader ----------

  datatype Mode = Header | Samples(header: Cell)

  datatype State = State(mode: Mode, out: seq<Rec>)

  /** What one cell does to the reader. */
  function Read(s: State, c: Cell): State {
    match s.mode
    case Header => State(Samples(c), s.out)
    case Samples(h) =>
      if c.first == 0 then State(Header, s.out)
      else State(s.mode, s.out + [Rec(h.first, h.second, c.first, c.second)])
  }

  function ReadAll(cells: seq<Cell>): State {
    if cells == [] then State(Header, []) else Read(ReadAll(cells[..|cells| - 1]), cells[|cells| - 1])
  }

  function Decode(cells: seq<Cell>): seq<Rec> { ReadAll(cells).out }

  lemma ReadSnoc(cells: seq<Cell>, c: Cell)
    ensures ReadAll(cells + [c]) == Read(ReadAll(cells), c)
  {
    assert (cells + [c])[..|cells|] == cells;
  }

  /** The nested loops of gultocsv: headers outside, samples inside. */
  method ReadStream(cells: seq<Cell>) returns (out: seq<Rec>)
    ensures out == Decode(cells)
  {
    out := [];
    var pos := 0;
    while pos < |cells|
      invariant 0 <= pos <= |cells|
      invariant ReadAll(cells[..pos]).out == out && (pos < |cells| ==> ReadAll(cells[..pos]).mode == Header)
    {
      var gh := cells[pos];
      ReadNext(cells, pos);
      pos := pos + 1;
      while pos < |cells|
        invariant 0 <= pos <= |cells| && ReadAll(cells[..pos]) == State(Samples(gh), out)
      {
        var gr := cells[pos];
        ReadNext(cells, pos);
        pos := pos + 1;
        if gr.first == 0 { break; }
        out := out + [Rec(gh.first, gh.second, gr.first, gr.second)];
      }
    }
    assert cells[..pos] == cells;
  }

  lemma ReadNext(cells: seq<Cell>, pos: nat)
    requires pos < |cells|
    ensures ReadAll(cells[..pos + 1]) == Read(ReadAll(cells[..pos]), cells[pos])
  {
    assert cells[..pos + 1] == cells[..pos] + [cells[pos]];
    ReadSnoc(cells[..pos], cells[pos]);
  }

  // ---------- round trip ----------

  /** No sample has the sidx that ends a list. */
  ghost predicate NonZeroSidx(recs: seq<Rec>) { forall i :: 0 <= i < |recs| ==> recs[i].sidx != 0 }

  /** What the cells of one record do to the reader. */
  function ReadCells(s: State, last: Cell, noHeader: bool, r: Rec): State {
    var t := if KeyOf(r) == last then s
             else Read(if noHeader then s else Read(s, NULL_CELL), KeyOf(r));
    Read(t, Cell(r.sidx, r.loss))
  }

  lemma ReadRecord(recs: seq<Rec>, r: Rec)
    ensures ReadAll(Encode(recs + [r])) == ReadCells(ReadAll(Encode(recs)), LastHeader(recs), NoHeader(recs), r)
  {
    var stream, c := Encode(recs), Cell(r.sidx, r.loss);
    EncodeSnoc(recs, r);
    NextIsEncoded(stream, LastHeader(recs), NoHeader(recs), r);
    if KeyOf(r) == LastHeader(recs) {
      ReadSnoc(stream, c);
    } else {
      var ended := stream + if NoHeader(recs) then [] else [NULL_CELL];
      EndList(stream, NoHeader(recs));
      ReadSnoc(ended, KeyOf(r));
      ReadSnoc(ended + [KeyOf(r)], c);
    }
  }

  lemma EndList(stream: seq<Cell>, noHeader: bool)
    ensures ReadAll(stream + if noHeader then [] else [NULL_CELL])
            == if noHeader then ReadAll(stream) else Read(ReadAll(stream), NULL_CELL)
  {
    ReadSnoc(stream, NULL_CELL);
    assert stream + [] == stream;
  }

  lemma {:induction false} Aligned(recs: seq<Rec>)
    requires recs != [] && NonZeroSidx(recs) && KeyOf(recs[0]) != NULL_CELL
    ensures ReadAll(Encode(recs)) == State(Samples(LastHeader(recs)), recs)
  {
    var before, r := recs[..|recs| - 1], recs[|recs| - 1];
    assert recs == before + [r];
    if before == [] {
      AlignedFirst(r);
    } else {
      Aligned(before);
      AlignedNext(before, r);
    }
  }

  lemma AlignedFirst(r: Rec)
    requires r.sidx != 0 && KeyOf(r) != NULL_CELL
    ensures ReadAll(Encode([] + [r])) == State(Samples(KeyOf(r)), [] + [r])
  {
    ReadRecord([], r);
  }

  lemma AlignedNext(recs: seq<Rec>, r: Rec)
    requires recs != [] && KeyOf(recs[0]) != NULL_CELL && r.sidx != 0
    requires ReadAll(Encode(recs)) == State(Samples(LastHeader(recs)), recs)
    ensures ReadAll(Encode(recs + [r])) == State(Samples(KeyOf(r)), recs + [r])
  {
    ReadRecord(recs, r);
    AlignedStays(recs, r);
  }

  lemma AlignedStays(recs: seq<Rec>, r: Rec)
    requires r.sidx != 0
    ensures ReadCells(State(Samples(LastHeader(recs)), recs), LastHeader(recs), false, r)
            == State(Samples(KeyOf(r)), recs + [r])
  {}

  /** What a stream without its first header reads as. */
  ghost predicate Broken(recs: seq<Rec>, s: State)
    requires recs != []
  {
    && s.mode.Samples?
    && ((s.out != [] && s.out[0].event_id != 0) || |s.out| < |recs|)
    && (NoHeader(recs) ==> s.mode.header == Cell(recs[0].sidx, recs[0].loss)
                           && (s.out != [] ==> s.out[0].event_id != 0))
  }

  lemma {:induction false} Misaligned(recs: seq<Rec>)
    requires recs != [] && NonZeroSidx(recs) && KeyOf(recs[0]) == NULL_CELL
    ensures Broken(recs, ReadAll(Encode(recs)))
  {
    var before, r := recs[..|recs| - 1], recs[|recs| - 1];
    assert recs == before + [r];
    if before == [] {
      MisalignedFirst(r);
    } else {
      Misaligned(before);
      MisalignedNext(before, r);
    }
  }

  lemma MisalignedFirst(r: Rec)
    requires KeyOf(r) == NULL_CELL
    ensures Broken([] + [r], ReadAll(Encode([] + [r])))
  {
    ReadRecord([], r);
  }

  lemma MisalignedNext(recs: seq<Rec>, r: Rec)
    requires recs != [] && recs[0].sidx != 0 && r.sidx != 0 && Broken(recs, ReadAll(Encode(recs)))
    ensures Broken(recs + [r], ReadAll(Encode(recs + [r])))
  {
    ReadRecord(recs, r);
    NoHeaderSnoc(recs, r);
    BrokenStays(recs, r, ReadAll(Encode(recs)));
  }

  lemma BrokenStays(recs: seq<Rec>, r: Rec, s: State)
    requires recs != [] && recs[0].sidx != 0 && r.sidx != 0 && Broken(recs, s)
    requires NoHeader(recs + [r]) == (NoHeader(recs) && KeyOf(r) == NULL_CELL)
    requires NoHeader(recs) ==> LastHeader(recs) == NULL_CELL
    ensures Broken(recs + [r], ReadCells(s, LastHeader(recs), NoHeader(recs), r))
  {}

  /**
    The round trip: whatever was written, wherever the buffer was flushed, the reader gives
    it back exactly if the first record is not of event 0 and item 0.
  */
  lemma RoundTrip(recs: seq<Rec>)
    requires recs != [] && NonZeroSidx(recs)
    ensures Decode(Encode(recs)) == recs <==> KeyOf(recs[0]) != NULL_CELL
  {
    if KeyOf(recs[0]) != NULL_CELL { Aligned(recs); } else { Misaligned(recs); }
  }

  /** A run of the writer and the reader. */
  method WriteAndRead(recs: seq<Rec>) returns (out: seq<Rec>)
    requires NonZeroSidx(recs) && forall i :: 0 <= i < |recs| ==> recs[i].event_id >= 1
    ensures out == recs
  {
    var w := new ItemWriter();
    w.WriteAll(recs);
    out := ReadStream(w.written);
    if recs != [] { RoundTrip(recs); }
  }
}
