/**
  parse_policytc and addtcrow: the three-dimensional table of profiles by level, aggregate and
  layer, and the no-op rows that make the layers of the top level uniform.
*/
module PolicyTable {
  import Hierarchy

  datatype TcRow = TcRow(level_id: nat, agg_id: nat, layer_id: nat, profile_id: int)

  predicate SameCell(f: TcRow, g: TcRow) {
    f.level_id == g.level_id && f.agg_id == g.agg_id && f.layer_id == g.layer_id
  }

  // ---------- reading the table ----------

  /** The list of profiles of an aggregate; empty where the table does not reach. */
  function CellAt(t: seq<seq<seq<int>>>, level: nat, agg: nat): seq<int> {
    if level < |t| && agg < |t[level]| then t[level][agg] else []
  }

  function ValueAt(t: seq<seq<seq<int>>>, level: nat, agg: nat, layer: nat): int {
    var cell := CellAt(t, level, agg);
    if layer < |cell| then cell[layer] else 0
  }

  /** std::vector::resize, where it makes a vector longer. */
  function Grown<T>(s: seq<T>, n: nat, zero: T): (r: seq<T>)
    ensures |r| == if |s| < n then n else |s|
    ensures forall i :: 0 <= i < |r| ==> r[i] == if i < |s| then s[i] else zero
    decreases n - |s|
  {
    if |s| < n then Grown(s + [zero], n, zero) else s
  }

  /** The list of an aggregate after one row is added to it. */
  function CellWith(cell: seq<int>, layer: nat, profile: int): seq<int> {
    Grown(cell, layer + 1, 0)[layer := profile]
  }

  /** t with the list of one aggregate replaced, as far as a reader can tell. */
  ghost predicate OneCell(t0: seq<seq<seq<int>>>, t: seq<seq<seq<int>>>, level: nat, agg: nat, cell: seq<int>) {
    forall l: nat, a: nat :: CellAt(t, l, a) == if l == level && a == agg then cell else CellAt(t0, l, a)
  }

  class FmCalc {
    var policy_tc: seq<seq<seq<int>>>
    var level_to_max_layer: seq<int>
    var max_level: int
    var max_layer: int
    var max_agg_id: int
    const maxRunLevel: int

    constructor (maxRunLevel: int)
      ensures policy_tc == [] && level_to_max_layer == [] && max_level == max_layer == max_agg_id == 0
      ensures this.maxRunLevel == maxRunLevel
    {
      policy_tc, level_to_max_layer := [], [];
      max_level, max_layer, max_agg_id := 0, 0, 0;
      this.maxRunLevel := maxRunLevel;
    }

    /** The highest layer of a level; 0 where the vector does not reach. */
    function MaxLayerOf(level: nat): int
      reads this
    {
      if level < |level_to_max_layer| then level_to_max_layer[level] else 0
    }

    /** One row: its aggregate's list reaches its layer and holds its profile; nothing else changes. */
    method AddTcRow(f: TcRow)
      modifies this
      ensures f.level_id > maxRunLevel ==>
                && policy_tc == old(policy_tc) && level_to_max_layer == old(level_to_max_layer)
                && max_level == old(max_level) && max_layer == old(max_layer) && max_agg_id == old(max_agg_id)
      ensures f.level_id <= maxRunLevel ==>
                && OneCell(old(policy_tc), policy_tc, f.level_id, f.agg_id,
                           CellWith(CellAt(old(policy_tc), f.level_id, f.agg_id), f.layer_id, f.profile_id))
                && max_level == Larger(old(max_level), f.level_id)
                && max_layer == Larger(old(max_layer), f.layer_id)
                && max_agg_id == Larger(old(max_agg_id), f.agg_id)
                && forall l: nat :: MaxLayerOf(l) == if l == f.level_id then Larger(old(MaxLayerOf(l)), f.layer_id)
                                                     else old(MaxLayerOf(l))
    {
      if f.level_id <= maxRunLevel {
        if f.level_id > max_level { max_level := f.level_id; }
        if f.layer_id > max_layer { max_layer := f.layer_id; }
        if f.level_id >= |level_to_max_layer| {
          level_to_max_layer := Grown(level_to_max_layer, f.level_id + 1, 0);
          level_to_max_layer := level_to_max_layer[f.level_id := 0];
        }
        if level_to_max_layer[f.level_id] < f.layer_id {
          level_to_max_layer := level_to_max_layer[f.level_id := f.layer_id];
        }
        if f.agg_id > max_agg_id { max_agg_id := f.agg_id; }
        PutRow(f);
      }
    }

    method PutRow(f: TcRow)
      modifies this`policy_tc
      ensures OneCell(old(policy_tc), policy_tc, f.level_id, f.agg_id,
                      CellWith(CellAt(old(policy_tc), f.level_id, f.agg_id), f.layer_id, f.profile_id))
    {
      if |policy_tc| < f.level_id + 1 {
        policy_tc := Grown(policy_tc, f.level_id + 1, []);
      }
      var level := policy_tc[f.level_id];
      if |level| < f.agg_id + 1 {
        level := Grown(level, f.agg_id + 1, []);
      }
      var cell := level[f.agg_id];
      if |cell| < f.layer_id + 1 {
        cell := Grown(cell, f.layer_id + 1, 0);
      }
      cell := cell[f.layer_id := f.profile_id];
      level := level[f.agg_id := cell];
      policy_tc := policy_tc[f.level_id := level];
    }

    /** init_policytc: every aggregate of level 0 gets one layer, then the rows are added. */
    method InitPolicyTc(maxAgg0: nat, rows: seq<TcRow>)
      requires policy_tc == []
      modifies this
      ensures Records(policy_tc, Within(LevelZero(maxAgg0) + rows, maxRunLevel), [])
    {
      var f := [];
      for i := 1 to maxAgg0 + 1
        invariant f == LevelZero(i - 1)
      {
        f := f + [TcRow(0, i, 1, -1)];
      }
      AddRows(f + rows);
    }

    /** The loop over the rows. */
    method AddRows(rows: seq<TcRow>)
      modifies this
      ensures Records(policy_tc, Within(rows, maxRunLevel), old(policy_tc))
    {
      RecordsNothing(policy_tc);
      for i := 0 to |rows|
        invariant Records(policy_tc, Within(rows[..i], maxRunLevel), old(policy_tc))
      {
        ghost var before := policy_tc;
        AddTcRow(rows[i]);
        RecordsStep(before, policy_tc, rows, i, maxRunLevel, old(policy_tc));
      }
      assert rows[..|rows|] == rows;
    }
  }

  function LevelZero(maxAgg0: nat): seq<TcRow> {
    if maxAgg0 == 0 then [] else LevelZero(maxAgg0 - 1) + [TcRow(0, maxAgg0, 1, -1)]
  }

  function Larger(a: int, b: int): int { if a < b then b else a }

  // ---------- what rows leave in the table ----------

  /** The rows of the levels that are run. */
  function Within(rows: seq<TcRow>, maxRunLevel: int): seq<TcRow> {
    if rows == [] then []
    else
      var n := |rows| - 1;
      Within(rows[..n], maxRunLevel) + if rows[n].level_id <= maxRunLevel then [rows[n]] else []
  }

  lemma WithinSnoc(rows: seq<TcRow>, f: TcRow, maxRunLevel: int)
    ensures Within(rows + [f], maxRunLevel)
            == Within(rows, maxRunLevel) + if f.level_id <= maxRunLevel then [f] else []
  {
    assert (rows + [f])[..|rows|] == rows;
  }

  /** How far the list of an aggregate reaches after the rows, from size before. */
  function Reach(rows: seq<TcRow>, level: nat, agg: nat, size: nat): nat {
    if rows == [] then size
    else
      var n := |rows| - 1;
      var before := Reach(rows[..n], level, agg, size);
      if rows[n].level_id == level && rows[n].agg_id == agg && before < rows[n].layer_id + 1
      then rows[n].layer_id + 1 else before
  }

  /** The last row for a cell decides its profile. */
  function Latest(rows: seq<TcRow>, level: nat, agg: nat, layer: nat, value: int): int {
    if rows == [] then value
    else
      var n := |rows| - 1;
      if SameCell(rows[n], TcRow(level, agg, layer, 0)) then rows[n].profile_id
      else Latest(rows[..n], level, agg, layer, value)
  }

  ghost predicate Records(t: seq<seq<seq<int>>>, rows: seq<TcRow>, start: seq<seq<seq<int>>>) {
    && (forall l: nat, a: nat :: |CellAt(t, l, a)| == Reach(rows, l, a, |CellAt(start, l, a)|))
    && (forall l: nat, a: nat, k: nat :: ValueAt(t, l, a, k) == Latest(rows, l, a, k, ValueAt(start, l, a, k)))
  }

  lemma RecordsSnoc(t0: seq<seq<seq<int>>>, t: seq<seq<seq<int>>>, rows: seq<TcRow>, f: TcRow,
                    start: seq<seq<seq<int>>>)
    requires Records(t0, rows, start)
    requires OneCell(t0, t, f.level_id, f.agg_id, CellWith(CellAt(t0, f.level_id, f.agg_id), f.layer_id, f.profile_id))
    ensures Records(t, rows + [f], start)
  {
    assert (rows + [f])[..|rows|] == rows;
    forall l: nat, a: nat
      ensures |CellAt(t, l, a)| == Reach(rows + [f], l, a, |CellAt(start, l, a)|)
    {}
    forall l: nat, a: nat, k: nat
      ensures ValueAt(t, l, a, k) == Latest(rows + [f], l, a, k, ValueAt(start, l, a, k))
    {
      assert CellAt(t, l, a) == if l == f.level_id && a == f.agg_id
                                then CellWith(CellAt(t0, l, a), f.layer_id, f.profile_id) else CellAt(t0, l, a);
      assert ValueAt(t, l, a, k) == if SameCell(f, TcRow(l, a, k, 0)) then f.profile_id else ValueAt(t0, l, a, k);
    }
  }

  lemma RecordsNothing(t: seq<seq<seq<int>>>)
    ensures Records(t, [], t)
  {}

  lemma RecordsStep(t0: seq<seq<seq<int>>>, t: seq<seq<seq<int>>>, rows: seq<TcRow>, i: nat, maxRunLevel: int,
                    start: seq<seq<seq<int>>>)
    requires i < |rows| && Records(t0, Within(rows[..i], maxRunLevel), start)
    requires if rows[i].level_id > maxRunLevel then t == t0
             else OneCell(t0, t, rows[i].level_id, rows[i].agg_id,
                          CellWith(CellAt(t0, rows[i].level_id, rows[i].agg_id), rows[i].layer_id, rows[i].profile_id))
    ensures Records(t, Within(rows[..i + 1], maxRunLevel), start)
  {
    assert rows[..i + 1] == rows[..i] + [rows[i]];
    WithinSnoc(rows[..i], rows[i], maxRunLevel);
    if rows[i].level_id <= maxRunLevel {
      RecordsSnoc(t0, t, Within(rows[..i], maxRunLevel), rows[i], start);
    } else {
      assert Within(rows[..i], maxRunLevel) + [] == Within(rows[..i], maxRunLevel);
    }
  }

  // ---------- padding ----------

  predicate HasRow(rows: seq<TcRow>, level: nat, agg: nat, layer: nat) {
    exists i :: 0 <= i < |rows| && SameCell(rows[i], TcRow(level, agg, layer, 0))
  }

  /** The extent of the top level. */
  ghost predicate TopExtent(rows: seq<TcRow>, top: nat, maxAgg: nat, maxLayer: nat) {
    && (forall i :: 0 <= i < |rows| ==> rows[i].level_id <= top)
    && (forall i :: 0 <= i < |rows| && rows[i].level_id == top ==>
          rows[i].agg_id <= maxAgg && rows[i].layer_id <= maxLayer)
    && (maxAgg > 0 ==> exists i :: 0 <= i < |rows| && rows[i].level_id == top && rows[i].agg_id == maxAgg)
    && (maxLayer > 0 ==> exists i :: 0 <= i < |rows| && rows[i].level_id == top && rows[i].layer_id == maxLayer)
  }

  /** What padding adds: a no-op row for every missing aggregate and layer of the top level. */
  ghost predicate Padded(p0: seq<TcRow>, p: seq<TcRow>, top: nat, maxAgg: nat, maxLayer: nat, noop: int) {
    && |p0| <= |p| && p[..|p0|] == p0
    && (forall i :: |p0| <= i < |p| ==> PadRow(p0, p[i], top, maxAgg, maxLayer, noop))
    && (forall agg: nat, layer: nat :: 1 <= agg <= maxAgg && 1 <= layer <= maxLayer ==> HasRow(p, top, agg, layer))
  }

  ghost predicate PadRow(p0: seq<TcRow>, f: TcRow, top: nat, maxAgg: nat, maxLayer: nat, noop: int) {
    f.level_id == top && 1 <= f.agg_id <= maxAgg && 1 <= f.layer_id <= maxLayer && f.profile_id == noop
    && !HasRow(p0, top, f.agg_id, f.layer_id)
  }

  lemma HasRowSnoc(p: seq<TcRow>, f: TcRow, level: nat, agg: nat, layer: nat)
    ensures HasRow(p + [f], level, agg, layer)
            <==> HasRow(p, level, agg, layer) || SameCell(f, TcRow(level, agg, layer, 0))
  {
    var q := p + [f];
    if HasRow(p, level, agg, layer) {
      var i :| 0 <= i < |p| && SameCell(p[i], TcRow(level, agg, layer, 0));
      assert q[i] == p[i];
    }
    if SameCell(f, TcRow(level, agg, layer, 0)) { assert q[|p|] == f; }
  }

  /** The scan over the rows for the highest level. */
  method FindTop(rows: seq<TcRow>) returns (top: nat)
    ensures forall i :: 0 <= i < |rows| ==> rows[i].level_id <= top
    ensures rows != [] ==> exists i :: 0 <= i < |rows| && rows[i].level_id == top
  {
    top := 0;
    for i := 0 to |rows|
      invariant forall k :: 0 <= k < i ==> rows[k].level_id <= top
      invariant top == 0 || exists k :: 0 <= k < i && rows[k].level_id == top
    {
      if rows[i].level_id > top {
        top := rows[i].level_id;
      }
    }
    if rows != [] && top == 0 { assert rows[0].level_id == top; }
  }

  /** The cells of the top level that have a row. */
  ghost predicate CellsOf(la: set<(nat, nat)>, rows: seq<TcRow>, top: nat) {
    forall agg: nat, layer: nat :: (agg, layer) in la <==> HasRow(rows, top, agg, layer)
  }

  lemma CellsSnoc(la0: set<(nat, nat)>, la: set<(nat, nat)>, rows: seq<TcRow>, f: TcRow, top: nat)
    requires CellsOf(la0, rows, top)
    requires la == if f.level_id == top then la0 + {(f.agg_id, f.layer_id)} else la0
    ensures CellsOf(la, rows + [f], top)
  {
    forall agg: nat, layer: nat ensures (agg, layer) in la <==> HasRow(rows + [f], top, agg, layer) {
      HasRowSnoc(rows, f, top, agg, layer);
    }
  }

  /** The scan over the top level for its extent and its cells. */
  method FindExtent(rows: seq<TcRow>, top: nat) returns (maxAgg: nat, maxLayer: nat, la: set<(nat, nat)>)
    requires forall i :: 0 <= i < |rows| ==> rows[i].level_id <= top
    ensures TopExtent(rows, top, maxAgg, maxLayer)
    ensures CellsOf(la, rows, top)
  {
    maxAgg, maxLayer, la := 0, 0, {};
    for i := 0 to |rows|
      invariant TopExtent(rows[..i], top, maxAgg, maxLayer)
      invariant CellsOf(la, rows[..i], top)
    {
      var f := rows[i];
      assert rows[..i + 1] == rows[..i] + [f];
      ghost var cells := la;
      ghost var lowAgg, lower := maxAgg, maxLayer;
      if f.level_id == top {
        if f.agg_id > maxAgg { maxAgg := f.agg_id; }
        if f.layer_id > maxLayer { maxLayer := f.layer_id; }
        la := la + {(f.agg_id, f.layer_id)};
      }
      CellsSnoc(cells, la, rows[..i], f, top);
      ExtentSnoc(rows[..i], f, top, lowAgg, maxAgg, lower, maxLayer);
    }
    assert rows[..|rows|] == rows;
  }

  lemma ExtentSnoc(rows: seq<TcRow>, f: TcRow, top: nat, lowAgg: nat, maxAgg: nat, lower: nat, maxLayer: nat)
    requires TopExtent(rows, top, lowAgg, lower) && f.level_id <= top
    requires f.level_id == top ==> maxAgg == Larger(lowAgg, f.agg_id) && maxLayer == Larger(lower, f.layer_id)
    requires f.level_id != top ==> maxAgg == lowAgg && maxLayer == lower
    ensures TopExtent(rows + [f], top, maxAgg, maxLayer)
  {
    var all := rows + [f];
    if maxAgg > 0 {
      if maxAgg == lowAgg {
        var i :| 0 <= i < |rows| && rows[i].level_id == top && rows[i].agg_id == maxAgg;
        assert all[i] == rows[i];
      } else {
        assert all[|rows|] == f;
      }
    }
    if maxLayer > 0 {
      if maxLayer == lower {
        var i :| 0 <= i < |rows| && rows[i].level_id == top && rows[i].layer_id == maxLayer;
        assert all[i] == rows[i];
      } else {
        assert all[|rows|] == f;
      }
    }
  }

  /** The rows for the missing aggregates of one layer. */
  method PadLayer(p0: seq<TcRow>, p1: seq<TcRow>, la: set<(nat, nat)>, top: nat, layer: nat, maxAgg: nat,
                  maxLayer: nat, noop: int)
      returns (p: seq<TcRow>)
    requires 1 <= layer <= maxLayer
    requires CellsOf(la, p0, top)
    requires Extends(p0, p1, top, maxAgg, maxLayer, noop)
    ensures Extends(p0, p, top, maxAgg, maxLayer, noop) && |p1| <= |p| && p[..|p1|] == p1
    ensures forall agg: nat :: 1 <= agg <= maxAgg ==> HasRow(p, top, agg, layer)
  {
    p := p1;
    for j := 1 to maxAgg + 1
      invariant Extends(p0, p, top, maxAgg, maxLayer, noop) && |p1| <= |p| && p[..|p1|] == p1
      invariant forall agg: nat :: 1 <= agg < j ==> HasRow(p, top, agg, layer)
    {
      ghost var before := p;
      if (j, layer) !in la {
        p := p + [TcRow(top, j, layer, noop)];
        assert p[|before|] == TcRow(top, j, layer, noop);
        assert p[..|p0|] == before[..|p0|] && p[..|p1|] == before[..|p1|];
      } else {
        HasRowPrefix(p0, p, top, j, layer);
      }
      forall agg: nat | 1 <= agg < j ensures HasRow(p, top, agg, layer) {
        HasRowPrefix(before, p, top, agg, layer);
      }
    }
  }

  ghost predicate Extends(p0: seq<TcRow>, p: seq<TcRow>, top: nat, maxAgg: nat, maxLayer: nat, noop: int) {
    && |p0| <= |p| && p[..|p0|] == p0
    && (forall i :: |p0| <= i < |p| ==> PadRow(p0, p[i], top, maxAgg, maxLayer, noop))
  }

  lemma HasRowPrefix(p: seq<TcRow>, q: seq<TcRow>, level: nat, agg: nat, layer: nat)
    requires |p| <= |q| && q[..|p|] == p && HasRow(p, level, agg, layer)
    ensures HasRow(q, level, agg, layer)
  {
    var i :| 0 <= i < |p| && SameCell(p[i], TcRow(level, agg, layer, 0));
    assert q[i] == q[..|p|][i];
  }

  /** parse_policytc after the file is read: the top level is padded with no-op rows. */
  method ParsePolicyTc(rows: seq<TcRow>, noop: int)
      returns (p: seq<TcRow>, top: nat, maxAgg: nat, maxLayer: nat)
    ensures TopExtent(rows, top, maxAgg, maxLayer) && Padded(rows, p, top, maxAgg, maxLayer, noop)
    ensures rows != [] ==> exists i :: 0 <= i < |rows| && rows[i].level_id == top
  {
    var topLevel := FindTop(rows);
    var aggs, layers, la := FindExtent(rows, topLevel);
    p := rows;
    for i := 1 to layers + 1
      invariant Extends(rows, p, topLevel, aggs, layers, noop)
      invariant forall agg: nat, layer: nat :: 1 <= agg <= aggs && 1 <= layer < i ==> HasRow(p, topLevel, agg, layer)
    {
      ghost var before := p;
      p := PadLayer(rows, p, la, topLevel, i, aggs, layers, noop);
      forall agg: nat, layer: nat | 1 <= agg <= aggs && 1 <= layer < i ensures HasRow(p, topLevel, agg, layer) {
        HasRowPrefix(before, p, topLevel, agg, layer);
      }
    }
    top, maxAgg, maxLayer := topLevel, aggs, layers;
  }

  // ---------- the padded table is uniform at the top ----------

  /** p and q have the same rows for a level, in any order and with any repetition. */
  ghost predicate SameLevel(p: seq<TcRow>, q: seq<TcRow>, level: nat) {
    forall f: TcRow :: f.level_id == level ==> (f in p <==> f in q)
  }

  lemma {:induction false} WithinKeeps(rows: seq<TcRow>, maxRunLevel: int, f: TcRow)
    ensures f in Within(rows, maxRunLevel) <==> f in rows && f.level_id <= maxRunLevel
  {
    if rows != [] {
      var n := |rows| - 1;
      WithinKeeps(rows[..n], maxRunLevel, f);
      assert rows == rows[..n] + [rows[n]];
    }
  }

  lemma {:induction false} LevelZeroRows(maxAgg0: nat, f: TcRow)
    ensures f in LevelZero(maxAgg0) ==> f.level_id == 0
  {
    if maxAgg0 > 0 { LevelZeroRows(maxAgg0 - 1, f); }
  }

  /** What init_policytc adds is, for a level above 0 that is run, the rows it was given. */
  lemma InitKeepsLevel(p: seq<TcRow>, q: seq<TcRow>, maxAgg0: nat, level: nat, maxRunLevel: int)
    requires SameLevel(p, q, level) && 1 <= level <= maxRunLevel
    ensures SameLevel(p, Within(LevelZero(maxAgg0) + q, maxRunLevel), level)
  {
    forall f: TcRow | f.level_id == level ensures f in p <==> f in Within(LevelZero(maxAgg0) + q, maxRunLevel) {
      WithinKeeps(LevelZero(maxAgg0) + q, maxRunLevel, f);
      LevelZeroRows(maxAgg0, f);
    }
  }

  lemma {:induction false} ReachBound(rows: seq<TcRow>, level: nat, agg: nat, bound: nat)
    requires forall i :: 0 <= i < |rows| && rows[i].level_id == level && rows[i].agg_id == agg ==>
               rows[i].layer_id < bound
    ensures Reach(rows, level, agg, 0) <= bound
  {
    if rows != [] { ReachBound(rows[..|rows| - 1], level, agg, bound); }
  }

  lemma {:induction false} ReachCovers(rows: seq<TcRow>, level: nat, agg: nat, i: nat)
    requires i < |rows| && rows[i].level_id == level && rows[i].agg_id == agg
    ensures Reach(rows, level, agg, 0) >= rows[i].layer_id + 1
  {
    if i < |rows| - 1 { ReachCovers(rows[..|rows| - 1], level, agg, i); }
  }

  /** If all rows for a cell agree on the profile, that is the profile. */
  lemma {:induction false} LatestIs(rows: seq<TcRow>, level: nat, agg: nat, layer: nat, profile: int)
    requires HasRow(rows, level, agg, layer)
    requires forall i :: 0 <= i < |rows| && SameCell(rows[i], TcRow(level, agg, layer, 0)) ==>
               rows[i].profile_id == profile
    ensures Latest(rows, level, agg, layer, 0) == profile
  {
    var n := |rows| - 1;
    if !SameCell(rows[n], TcRow(level, agg, layer, 0)) {
      var i :| 0 <= i < |rows| && SameCell(rows[i], TcRow(level, agg, layer, 0));
      assert rows[..n][i] == rows[i];
      LatestIs(rows[..n], level, agg, layer, profile);
    }
  }

  lemma SameLevelCell(p: seq<TcRow>, q: seq<TcRow>, level: nat, agg: nat, layer: nat)
    requires SameLevel(p, q, level) && HasRow(p, level, agg, layer)
    ensures HasRow(q, level, agg, layer)
  {
    var i :| 0 <= i < |p| && SameCell(p[i], TcRow(level, agg, layer, 0));
    assert p[i] in q;
    var j :| 0 <= j < |q| && q[j] == p[i];
  }

  /**
    Whatever order the padded rows are added in, every aggregate of the top level ends up
    with exactly the layers 1 to maxLayer.
  */
  lemma TopIsUniform(rows: seq<TcRow>, p: seq<TcRow>, q: seq<TcRow>, top: nat, maxAgg: nat, maxLayer: nat, noop: int,
                     t: seq<seq<seq<int>>>, agg: nat)
    requires TopExtent(rows, top, maxAgg, maxLayer) && Padded(rows, p, top, maxAgg, maxLayer, noop)
    requires SameLevel(p, q, top) && Records(t, q, []) && maxLayer >= 1 && 1 <= agg <= maxAgg
    ensures |CellAt(t, top, agg)| == maxLayer + 1
  {
    assert HasRow(p, top, agg, maxLayer);
    SameLevelCell(p, q, top, agg, maxLayer);
    var i :| 0 <= i < |q| && SameCell(q[i], TcRow(top, agg, maxLayer, 0));
    ReachCovers(q, top, agg, i);
    forall k | 0 <= k < |q| && q[k].level_id == top && q[k].agg_id == agg ensures q[k].layer_id < maxLayer + 1 {
      PaddedLayer(rows, p, top, maxAgg, maxLayer, noop, q[k]);
    }
    ReachBound(q, top, agg, maxLayer + 1);
  }

  lemma PaddedLayer(rows: seq<TcRow>, p: seq<TcRow>, top: nat, maxAgg: nat, maxLayer: nat, noop: int, f: TcRow)
    requires TopExtent(rows, top, maxAgg, maxLayer) && Padded(rows, p, top, maxAgg, maxLayer, noop)
    requires f in p && f.level_id == top
    ensures f.layer_id <= maxLayer
  {
    var i :| 0 <= i < |p| && p[i] == f;
    if i < |rows| { assert p[..|rows|][i] == f; }
  }

  /** No two rows give one cell different profiles. */
  ghost predicate Unambiguous(rows: seq<TcRow>) {
    forall i, j :: 0 <= i < |rows| && 0 <= j < |rows| && SameCell(rows[i], rows[j]) ==> rows[i] == rows[j]
  }

  /** Its own profile where a row gives one, the no-op elsewhere on the top level. */
  lemma ProfileOrNoop(rows: seq<TcRow>, p: seq<TcRow>, q: seq<TcRow>, top: nat, maxAgg: nat, maxLayer: nat, noop: int,
                      t: seq<seq<seq<int>>>, agg: nat, layer: nat)
    requires Padded(rows, p, top, maxAgg, maxLayer, noop) && Unambiguous(rows)
    requires SameLevel(p, q, top) && Records(t, q, []) && 1 <= agg <= maxAgg && 1 <= layer <= maxLayer
    ensures forall i :: 0 <= i < |rows| && SameCell(rows[i], TcRow(top, agg, layer, 0)) ==>
              ValueAt(t, top, agg, layer) == rows[i].profile_id
    ensures !HasRow(rows, top, agg, layer) ==> ValueAt(t, top, agg, layer) == noop
  {
    var profile := ValueAt(t, top, agg, layer);
    assert HasRow(p, top, agg, layer);
    SameLevelCell(p, q, top, agg, layer);
    forall i | 0 <= i < |rows| && SameCell(rows[i], TcRow(top, agg, layer, 0)) ensures profile == rows[i].profile_id {
      AgreeOn(rows, p, q, top, maxAgg, maxLayer, noop, agg, layer, rows[i].profile_id);
      LatestIs(q, top, agg, layer, rows[i].profile_id);
    }
    if !HasRow(rows, top, agg, layer) {
      AgreeOn(rows, p, q, top, maxAgg, maxLayer, noop, agg, layer, noop);
      LatestIs(q, top, agg, layer, noop);
    }
  }

  lemma AgreeOn(rows: seq<TcRow>, p: seq<TcRow>, q: seq<TcRow>, top: nat, maxAgg: nat, maxLayer: nat, noop: int,
                agg: nat, layer: nat, profile: int)
    requires Padded(rows, p, top, maxAgg, maxLayer, noop) && SameLevel(p, q, top)
    requires if HasRow(rows, top, agg, layer)
             then forall i :: 0 <= i < |rows| && SameCell(rows[i], TcRow(top, agg, layer, 0)) ==>
                    rows[i].profile_id == profile
             else profile == noop
    ensures forall k :: 0 <= k < |q| && SameCell(q[k], TcRow(top, agg, layer, 0)) ==> q[k].profile_id == profile
  {
    forall k | 0 <= k < |q| && SameCell(q[k], TcRow(top, agg, layer, 0)) ensures q[k].profile_id == profile {
      assert q[k] in p;
      var i :| 0 <= i < |p| && p[i] == q[k];
      if i < |rows| {
        assert rows[i] == p[..|rows|][i];
      } else {
        assert PadRow(rows, p[i], top, maxAgg, maxLayer, noop);
      }
    }
  }

  /** In the terms of the hierarchy: all aggregates of the top level have the same layers. */
  lemma TopLayersAgree(rows: seq<TcRow>, p: seq<TcRow>, q: seq<TcRow>, top: nat, maxAgg: nat, maxLayer: nat, noop: int,
                       t: seq<seq<seq<int>>>, input: Hierarchy.LevelInput, a: nat, b: nat)
    requires TopExtent(rows, top, maxAgg, maxLayer) && Padded(rows, p, top, maxAgg, maxLayer, noop)
    requires SameLevel(p, q, top) && Records(t, q, []) && maxLayer >= 1 && 1 <= a <= maxAgg && 1 <= b <= maxAgg
    requires top < |t| && input.policy_tc == t[top]
    ensures input.Layers(a) == input.Layers(b) == maxLayer
  {
    TopIsUniform(rows, p, q, top, maxAgg, maxLayer, noop, t, a);
    TopIsUniform(rows, p, q, top, maxAgg, maxLayer, noop, t, b);
  }

  // ---------- which row a cell holds ----------

  lemma {:induction false} LastRowDecides(rows: seq<TcRow>, level: nat, agg: nat, layer: nat, value: int, i: nat)
    requires i < |rows| && SameCell(rows[i], TcRow(level, agg, layer, 0))
    requires forall k :: i < k < |rows| ==> !SameCell(rows[k], TcRow(level, agg, layer, 0))
    ensures Latest(rows, level, agg, layer, value) == rows[i].profile_id
  {
    if i < |rows| - 1 { LastRowDecides(rows[..|rows| - 1], level, agg, layer, value, i); }
  }

  lemma {:induction false} WithinDecides(rows: seq<TcRow>, maxRunLevel: int, level: nat, agg: nat, layer: nat,
                                         value: int)
    requires level <= maxRunLevel
    ensures Latest(Within(rows, maxRunLevel), level, agg, layer, value) == Latest(rows, level, agg, layer, value)
  {
    if rows != [] {
      var n := |rows| - 1;
      WithinDecides(rows[..n], maxRunLevel, level, agg, layer, value);
      var before := Within(rows[..n], maxRunLevel);
      assert (before + [rows[n]])[..|before|] == before;
      assert before + [] == before;
    }
  }

  /** After init_policytc a cell of a level that is run holds the profile of the last row given for it. */
  lemma CellHoldsLastRow(t: seq<seq<seq<int>>>, rows: seq<TcRow>, maxAgg0: nat, maxRunLevel: int, i: nat)
    requires Records(t, Within(LevelZero(maxAgg0) + rows, maxRunLevel), [])
    requires i < |rows| && rows[i].level_id <= maxRunLevel
    requires forall k :: i < k < |rows| ==> !SameCell(rows[k], rows[i])
    ensures ValueAt(t, rows[i].level_id, rows[i].agg_id, rows[i].layer_id) == rows[i].profile_id
  {
    var f, all, m := rows[i], LevelZero(maxAgg0) + rows, |LevelZero(maxAgg0)|;
    WithinDecides(all, maxRunLevel, f.level_id, f.agg_id, f.layer_id, 0);
    forall k | m + i < k < |all| ensures !SameCell(all[k], TcRow(f.level_id, f.agg_id, f.layer_id, 0)) {
      assert all[k] == rows[k - m];
    }
    LastRowDecides(all, f.level_id, f.agg_id, f.layer_id, 0, m + i);
  }
}
