/**
  What is written for the items below the aggregates of the top level: which items, under which
  output, and how much.
*/
module OutputRecords {
  import opened FinancialStructs
  import opened RealSums

  /** The items of a record. */
  function Indices(x: LossRec): seq<nat> { if x.item_idx.Some? then x.item_idx.value else [] }

  predicate InRange(at: seq<nat>, n: nat) { forall t :: 0 <= t < |at| ==> at[t] < n }

  ghost predicate AllInRange(v: seq<LossRec>, n: nat) { forall j :: 0 <= j < |v| ==> InRange(Indices(v[j]), n) }

  datatype OutRec = OutRec(output_id: int, sidx: int, loss: real)

  /** The part of a record's loss that goes to the item at place t of its list. */
  function ItemLoss(x: LossRec, t: nat): real {
    Times(x.loss, if x.item_prop.Some? && t < |x.item_prop.value| then x.item_prop.value[t] else 0.0)
  }

  /** What a record writes for place t of its list. */
  function ItemWritten(x: LossRec, items: seq<int>, layer: int, sidx: int, xref: map<(int, int), int>, t: nat)
    : seq<OutRec>
    requires t < |Indices(x)| && InRange(Indices(x), |items|)
  {
    var key := (items[Indices(x)[t]], layer);
    if (ItemLoss(x, t) > 0.0 || sidx < 0) && key in xref then [OutRec(xref[key], sidx, ItemLoss(x, t))] else []
  }

  /** What one record writes for its first n items. Special samples have a negative sidx. */
  function Written(x: LossRec, items: seq<int>, layer: int, sidx: int, xref: map<(int, int), int>, n: nat): seq<OutRec>
    requires n <= |Indices(x)| && InRange(Indices(x), |items|)
  {
    if n == 0 then []
    else Written(x, items, layer, sidx, xref, n - 1) + ItemWritten(x, items, layer, sidx, xref, n - 1)
  }

  predicate Writes(x: LossRec, sidx: int) { (x.loss > 0.0 || sidx < 0) && x.agg_id > 0 }

  ghost predicate SomeWrites(v: seq<LossRec>, n: nat, sidx: int)
    requires n <= |v|
  {
    exists i :: 0 <= i < n && Writes(v[i], sidx)
  }

  /** What the first n records of the top level write. */
  function AllWritten(v: seq<LossRec>, items: seq<int>, layer: int, sidx: int, xref: map<(int, int), int>, n: nat)
    : seq<OutRec>
    requires n <= |v| && AllInRange(v, |items|)
  {
    if n == 0 then []
    else AllWritten(v, items, layer, sidx, xref, n - 1)
         + if Writes(v[n - 1], sidx) then Written(v[n - 1], items, layer, sidx, xref, |Indices(v[n - 1])|) else []
  }

  ghost predicate NoNegativeItem(x: LossRec) { forall t: nat :: ItemLoss(x, t) >= 0.0 }

  // ---------- what is written, place by place ----------

  /** Position at of the item list of a record. */
  datatype Place = Place(record: nat, at: nat)

  predicate Earlier(a: Place, b: Place) { a.record < b.record || (a.record == b.record && a.at < b.at) }

  /**
    r is what a record writes for a place: the part of its loss that the proportion there
    makes, under the output that the cross reference has for the item there.
  */
  predicate WrittenFor(x: LossRec, at: nat, items: seq<int>, layer: int, sidx: int, xref: map<(int, int), int>,
                       r: OutRec)
  {
    && x.agg_id > 0 && (x.loss > 0.0 || sidx < 0)
    && x.item_idx.Some? && at < |x.item_idx.value| && x.item_idx.value[at] < |items|
    && (items[x.item_idx.value[at]], layer) in xref && r.output_id == xref[(items[x.item_idx.value[at]], layer)]
    && r.sidx == sidx && (r.loss > 0.0 || sidx < 0)
    && r.loss == Times(x.loss, if x.item_prop.Some? && at < |x.item_prop.value| then x.item_prop.value[at] else 0.0)
  }

  /** For the places before a limit, each that has something to write once, in order. */
  ghost predicate PlacesBefore(v: seq<LossRec>, items: seq<int>, layer: int, sidx: int, xref: map<(int, int), int>,
                               out: seq<OutRec>, places: seq<Place>, limit: Place)
  {
    && |places| == |out|
    && (forall i :: 0 <= i < |out| ==>
          places[i].record < |v| && Earlier(places[i], limit)
          && WrittenFor(v[places[i].record], places[i].at, items, layer, sidx, xref, out[i]))
    && (forall i, k :: 0 <= i < k < |out| ==> Earlier(places[i], places[k]))
    && (forall j: nat, at: nat, r: OutRec ::
          j < |v| && Earlier(Place(j, at), limit) && WrittenFor(v[j], at, items, layer, sidx, xref, r) ==>
            Place(j, at) in places)
  }

  /** The records written are those of all places that have something to write, each once, in order. */
  ghost predicate OutputIs(v: seq<LossRec>, items: seq<int>, layer: int, sidx: int, xref: map<(int, int), int>,
                           out: seq<OutRec>)
  {
    exists places :: PlacesBefore(v, items, layer, sidx, xref, out, places, Place(|v|, 0))
  }

  lemma OnePlace(v: seq<LossRec>, items: seq<int>, layer: int, sidx: int, xref: map<(int, int), int>,
                 out: seq<OutRec>, places: seq<Place>, j: nat, t: nat)
      returns (more: seq<Place>)
    requires j < |v| && t < |Indices(v[j])| && InRange(Indices(v[j]), |items|) && Writes(v[j], sidx)
    requires PlacesBefore(v, items, layer, sidx, xref, out, places, Place(j, t))
    ensures PlacesBefore(v, items, layer, sidx, xref, out + ItemWritten(v[j], items, layer, sidx, xref, t), more,
                         Place(j, t + 1))
  {
    var x, key := v[j], (items[Indices(v[j])[t]], layer);
    if (ItemLoss(x, t) > 0.0 || sidx < 0) && key in xref {
      more := places + [Place(j, t)];
      assert Place(j, t) in more;
    } else {
      more := places;
      assert out + [] == out;
    }
  }

  lemma {:induction false} RecordPlaces(v: seq<LossRec>, items: seq<int>, layer: int, sidx: int,
                                        xref: map<(int, int), int>, out: seq<OutRec>, places: seq<Place>, j: nat,
                                        n: nat)
      returns (more: seq<Place>)
    requires j < |v| && n <= |Indices(v[j])| && InRange(Indices(v[j]), |items|) && Writes(v[j], sidx)
    requires PlacesBefore(v, items, layer, sidx, xref, out, places, Place(j, 0))
    ensures PlacesBefore(v, items, layer, sidx, xref, out + Written(v[j], items, layer, sidx, xref, n), more,
                         Place(j, n))
  {
    if n == 0 {
      more := places;
      assert out + [] == out;
    } else {
      var before := Written(v[j], items, layer, sidx, xref, n - 1);
      more := RecordPlaces(v, items, layer, sidx, xref, out, places, j, n - 1);
      more := OnePlace(v, items, layer, sidx, xref, out + before, more, j, n - 1);
      Associates(out, before, ItemWritten(v[j], items, layer, sidx, xref, n - 1));
    }
  }

  lemma Associates(a: seq<OutRec>, b: seq<OutRec>, c: seq<OutRec>)
    ensures (a + b) + c == a + (b + c)
  {}

  /** At the end of its list, or without writing anything, a record is done. */
  lemma NextRecord(v: seq<LossRec>, items: seq<int>, layer: int, sidx: int, xref: map<(int, int), int>,
                   out: seq<OutRec>, places: seq<Place>, j: nat, n: nat)
    requires j < |v| && PlacesBefore(v, items, layer, sidx, xref, out, places, Place(j, n))
    requires !Writes(v[j], sidx) || n >= |Indices(v[j])|
    ensures PlacesBefore(v, items, layer, sidx, xref, out, places, Place(j + 1, 0))
  {
    forall k: nat, at: nat, r: OutRec
      | k < |v| && Earlier(Place(k, at), Place(j + 1, 0)) && WrittenFor(v[k], at, items, layer, sidx, xref, r)
      ensures Place(k, at) in places
    {
      assert k == j ==> at < n;
    }
  }

  lemma {:induction false} AllPlaces(v: seq<LossRec>, items: seq<int>, layer: int, sidx: int,
                                     xref: map<(int, int), int>, n: nat)
      returns (places: seq<Place>)
    requires n <= |v| && AllInRange(v, |items|)
    ensures PlacesBefore(v, items, layer, sidx, xref, AllWritten(v, items, layer, sidx, xref, n), places, Place(n, 0))
  {
    if n == 0 {
      places := [];
    } else {
      var j, before := n - 1, AllWritten(v, items, layer, sidx, xref, n - 1);
      places := AllPlaces(v, items, layer, sidx, xref, j);
      if Writes(v[j], sidx) {
        places := RecordPlaces(v, items, layer, sidx, xref, before, places, j, |Indices(v[j])|);
        NextRecord(v, items, layer, sidx, xref, AllWritten(v, items, layer, sidx, xref, n), places, j, |Indices(v[j])|);
      } else {
        NextRecord(v, items, layer, sidx, xref, before, places, j, 0);
        assert before + [] == before;
      }
    }
  }

  // ---------- what is written under an output ----------

  /** The losses written under an output. */
  function IdSum(out: seq<OutRec>, id: int): real {
    if out == [] then 0.0
    else
      var r := out[|out| - 1];
      IdSum(out[..|out| - 1], id) + if r.output_id == id then r.loss else 0.0
  }

  lemma {:induction false} IdSumConcat(a: seq<OutRec>, b: seq<OutRec>, id: int)
    ensures IdSum(a + b, id) == IdSum(a, id) + IdSum(b, id)
  {
    if b == [] {
      assert a + b == a;
    } else {
      IdSumConcat(a, b[..|b| - 1], id);
      assert (a + b)[..|a + b| - 1] == a + b[..|b| - 1];
    }
  }

  /** The part of a place whose item has this output; nothing from the other places. */
  predicate PartFor(x: LossRec, items: seq<int>, layer: int, xref: map<(int, int), int>, id: int, at: nat, part: real) {
    if x.item_idx.Some? && at < |x.item_idx.value| && x.item_idx.value[at] < |items|
       && (items[x.item_idx.value[at]], layer) in xref && xref[(items[x.item_idx.value[at]], layer)] == id
    then part == Times(x.loss, if x.item_prop.Some? && at < |x.item_prop.value| then x.item_prop.value[at] else 0.0)
    else part == 0.0
  }

  ghost predicate PartsFor(x: LossRec, items: seq<int>, layer: int, sidx: int, xref: map<(int, int), int>, id: int,
                           parts: seq<real>)
  {
    if x.agg_id > 0 && (x.loss > 0.0 || sidx < 0) && x.item_idx.Some? then
      |parts| == |x.item_idx.value| && forall t :: 0 <= t < |parts| ==> PartFor(x, items, layer, xref, id, t, parts[t])
    else parts == []
  }

  /** For the first n records, the sums of the parts that go to an output. */
  ghost predicate SumsFor(v: seq<LossRec>, items: seq<int>, layer: int, sidx: int, xref: map<(int, int), int>,
                          id: int, n: nat, parts: seq<seq<real>>, sums: seq<real>)
    requires n <= |v|
  {
    |parts| == n == |sums| && forall j :: 0 <= j < n ==>
      PartsFor(v[j], items, layer, sidx, xref, id, parts[j]) && sums[j] == Sum(parts[j])
  }

  /** The losses under every output are the parts of the places whose items have that output. */
  ghost predicate OutputSums(v: seq<LossRec>, items: seq<int>, layer: int, sidx: int, xref: map<(int, int), int>,
                             out: seq<OutRec>)
  {
    forall id: int, parts: seq<seq<real>>, sums: seq<real> ::
      SumsFor(v, items, layer, sidx, xref, id, |v|, parts, sums) ==> IdSum(out, id) == Sum(sums)
  }

  lemma {:induction false} WrittenSum(x: LossRec, items: seq<int>, layer: int, sidx: int, xref: map<(int, int), int>,
                                      id: int, parts: seq<real>, n: nat)
    requires InRange(Indices(x), |items|) && Writes(x, sidx) && n <= |Indices(x)| && (sidx >= 0 ==> NoNegativeItem(x))
    requires |parts| == n && forall t :: 0 <= t < n ==> PartFor(x, items, layer, xref, id, t, parts[t])
    ensures IdSum(Written(x, items, layer, sidx, xref, n), id) == Sum(parts)
  {
    if n > 0 {
      WrittenSum(x, items, layer, sidx, xref, id, parts[..n - 1], n - 1);
      var before, key := Written(x, items, layer, sidx, xref, n - 1), (items[Indices(x)[n - 1]], layer);
      assert PartFor(x, items, layer, xref, id, n - 1, parts[n - 1]);
      assert sidx >= 0 ==> ItemLoss(x, n - 1) >= 0.0;
      if key in xref { IdSumConcat(before, [OutRec(xref[key], sidx, ItemLoss(x, n - 1))], id); }
      assert before + [] == before;
    }
  }

  lemma RecordSum(x: LossRec, items: seq<int>, layer: int, sidx: int, xref: map<(int, int), int>, id: int,
                  parts: seq<real>, before: seq<OutRec>)
    requires InRange(Indices(x), |items|) && (sidx >= 0 ==> NoNegativeItem(x))
    requires PartsFor(x, items, layer, sidx, xref, id, parts)
    ensures var more := if Writes(x, sidx) then Written(x, items, layer, sidx, xref, |Indices(x)|) else [];
            IdSum(before + more, id) == IdSum(before, id) + Sum(parts)
  {
    if Writes(x, sidx) {
      WrittenSum(x, items, layer, sidx, xref, id, parts, |Indices(x)|);
      IdSumConcat(before, Written(x, items, layer, sidx, xref, |Indices(x)|), id);
    } else {
      assert before + [] == before;
    }
  }

  lemma {:induction false} AllWrittenSum(v: seq<LossRec>, items: seq<int>, layer: int, sidx: int,
                                         xref: map<(int, int), int>, id: int, parts: seq<seq<real>>, sums: seq<real>,
                                         n: nat)
    requires n <= |v| && AllInRange(v, |items|) && SumsFor(v, items, layer, sidx, xref, id, n, parts, sums)
    requires sidx >= 0 ==> forall j :: 0 <= j < |v| ==> NoNegativeItem(v[j])
    ensures IdSum(AllWritten(v, items, layer, sidx, xref, n), id) == Sum(sums)
  {
    if n > 0 {
      var j := n - 1;
      AllWrittenSum(v, items, layer, sidx, xref, id, parts[..j], sums[..j], j);
      RecordSum(v[j], items, layer, sidx, xref, id, parts[j], AllWritten(v, items, layer, sidx, xref, j));
    }
  }

  /** What is written for a list of records is right place by place, and output by output. */
  ghost predicate OutputRight(v: seq<LossRec>, items: seq<int>, layer: int, sidx: int, xref: map<(int, int), int>,
                              out: seq<OutRec>)
  {
    && OutputIs(v, items, layer, sidx, xref, out)
    && ((sidx >= 0 ==> forall j :: 0 <= j < |v| ==> NoNegativeItem(v[j])) ==>
          OutputSums(v, items, layer, sidx, xref, out))
  }

  /** What the records of the top level write, place by place and output by output. */
  lemma OutputLaw(v: seq<LossRec>, items: seq<int>, layer: int, sidx: int, xref: map<(int, int), int>)
    requires AllInRange(v, |items|)
    ensures OutputRight(v, items, layer, sidx, xref, AllWritten(v, items, layer, sidx, xref, |v|))
  {
    var places := AllPlaces(v, items, layer, sidx, xref, |v|);
    if sidx >= 0 ==> forall j :: 0 <= j < |v| ==> NoNegativeItem(v[j]) {
      forall id: int, parts: seq<seq<real>>, sums: seq<real>
        | SumsFor(v, items, layer, sidx, xref, id, |v|, parts, sums)
        ensures IdSum(AllWritten(v, items, layer, sidx, xref, |v|), id) == Sum(sums)
      {
        AllWrittenSum(v, items, layer, sidx, xref, id, parts, sums, |v|);
      }
    }
  }

  lemma RecordLaw(x: LossRec, items: seq<int>, layer: int, sidx: int, xref: map<(int, int), int>)
    requires InRange(Indices(x), |items|)
    ensures Writes(x, sidx) ==>
              OutputRight([x], items, layer, sidx, xref, Written(x, items, layer, sidx, xref, |Indices(x)|))
  {
    OutputLaw([x], items, layer, sidx, xref);
    assert AllWritten([x], items, layer, sidx, xref, 0) == [];
    if Writes(x, sidx) {
      var w := Written(x, items, layer, sidx, xref, |Indices(x)|);
      assert AllWritten([x], items, layer, sidx, xref, 1) == [] + w == w;
    }
  }

  /** The end of the loop over the items of a record, the same under both allocation rules. */
  method WriteItem(item: int, layer: int, sidx: int, xref: map<(int, int), int>, loss: real, out0: seq<OutRec>)
      returns (out: seq<OutRec>)
    ensures out == out0 + if (loss > 0.0 || sidx < 0) && (item, layer) in xref
                          then [OutRec(xref[(item, layer)], sidx, loss)] else []
  {
    out := out0;
    if loss > 0.0 || sidx < 0 {
      var k := (item, layer);
      if k in xref { out := out + [OutRec(xref[k], sidx, loss)]; }
    }
  }

  method WriteRecord(x: LossRec, items: seq<int>, layer: int, sidx: int, xref: map<(int, int), int>)
      returns (out: seq<OutRec>)
    requires InRange(Indices(x), |items|)
    ensures out == Written(x, items, layer, sidx, xref, |Indices(x)|)
    ensures Writes(x, sidx) ==> OutputRight([x], items, layer, sidx, xref, out)
  {
    out := [];
    var at := if x.item_idx.Some? then x.item_idx.value else [];
    for i := 0 to |at|
      invariant out == Written(x, items, layer, sidx, xref, i)
    {
      var prop := 0.0;
      if x.item_prop.Some? && i < |x.item_prop.value| { prop := x.item_prop.value[i]; }
      var loss := Times(x.loss, prop);
      out := WriteItem(items[at[i]], layer, sidx, xref, loss, out);
    }
    RecordLaw(x, items, layer, sidx, xref);
  }
}
