/**
  kat: merging the per-process files of an eltcalc run back into event order.

  A file is its list of rows; the index of a file in the input stands for its FILE handle
  (and for the order of the handles, by which ties are broken).
*/
module KatMerge {
  import opened NumberTheory
  import EventPartition

  datatype Row = Row(summary_id: int, kind: int, event_id: int,
                     mean: real, standard_deviation: real, exposure_value: real)

  /** A file takes part unless it is empty or its first event id is 0, the mark of an empty file. */
  predicate Live(file: seq<Row>) {
    file != [] && file[0].event_id != 0
  }

  /** event_id % size with the id converted to a 64-bit unsigned number, and 0 counted as size. */
  function Order(event_id: int, files: nat): (o: int)
    requires files > 0
    ensures 1 <= o <= files
  {
    var u := if event_id < 0 then event_id + 0x1_0000_0000_0000_0000 else event_id;
    if u % files == 0 then files else u % files
  }

  // ---------- the order of the files ----------

  datatype Slot = Slot(order: int, file: nat)

  predicate Before(a: Slot, b: Slot) {
    a.order < b.order || (a.order == b.order && a.file < b.file)
  }

  ghost predicate Ordered(s: seq<Slot>) {
    forall i, j :: 0 <= i < j < |s| ==> Before(s[i], s[j])
  }

  /** Insertion at the place the sort gives it. */
  method Insert(s: seq<Slot>, x: Slot) returns (r: seq<Slot>)
    requires Ordered(s) && forall y :: y in s ==> y.file != x.file
    ensures Ordered(r)
    ensures forall y :: y in r <==> y in s || y == x
  {
    var i := |s|;
    while i > 0 && Before(x, s[i - 1])
      invariant 0 <= i <= |s|
      invariant forall j :: i <= j < |s| ==> Before(x, s[j])
    {
      i := i - 1;
    }
    r := s[..i] + [x] + s[i..];
    forall j, k | 0 <= j < k < |r| ensures Before(r[j], r[k]) {
      if j < i && k == i {
        assert s[j] in s && s[i - 1] in s;
      }
    }
  }

  ghost predicate SlotsOf(orders: seq<Slot>, files: seq<seq<Row>>, upTo: nat) {
    && Ordered(orders)
    && (forall x :: x in orders ==> x.file < upTo <= |files| && Live(files[x.file])
                                    && x.order == Order(files[x.file][0].event_id, |files|))
    && (forall f :: 0 <= f < upTo <= |files| && Live(files[f]) ==>
          Slot(Order(files[f][0].event_id, |files|), f) in orders)
  }

  /** The files that take part, sorted by the residue of their first event id. */
  method DetermineOrder(files: seq<seq<Row>>) returns (orders: seq<Slot>)
    ensures SlotsOf(orders, files, |files|)
  {
    orders := [];
    for f := 0 to |files|
      invariant SlotsOf(orders, files, f)
    {
      if Live(files[f]) {
        orders := Insert(orders, Slot(Order(files[f][0].event_id, |files|), f));
      }
    }
  }

  // ---------- reading one file ----------

  /** The do-while loop: prints the current row, then rows up to the expected event id. */
  method Drain(rest: seq<Row>, expected: int) returns (printed: seq<Row>, left: seq<Row>)
    requires rest != [] && rest[0].event_id <= expected
    ensures printed != [] && rest == printed + left
    ensures forall r :: r in printed ==> r.event_id <= expected
    ensures left != [] ==> left[0].event_id > expected
  {
    printed, left := [rest[0]], rest[1..];
    while left != [] && left[0].event_id <= expected
      invariant printed != [] && rest == printed + left
      invariant forall r :: r in printed ==> r.event_id <= expected
      decreases left
    {
      printed, left := printed + [left[0]], left[1..];
    }
  }

  // ---------- which file each printed row came from ----------

  /** The rows of out that carry the tag f, in order. */
  function FromFile(out: seq<Row>, tags: seq<nat>, f: nat): seq<Row>
    requires |out| == |tags|
  {
    if out == [] then []
    else
      var n := |out| - 1;
      FromFile(out[..n], tags[..n], f) + if tags[n] == f then [out[n]] else []
  }

  function Repeat(f: nat, n: nat): (r: seq<nat>)
    ensures |r| == n && forall k :: 0 <= k < n ==> r[k] == f
  {
    seq(n, k => f)
  }

  lemma {:induction false} FromFileConcat(out: seq<Row>, tags: seq<nat>, more: seq<Row>, g: nat, f: nat)
    requires |out| == |tags|
    ensures FromFile(out + more, tags + Repeat(g, |more|), f)
            == FromFile(out, tags, f) + if f == g then more else []
  {
    var n := |more| - 1;
    if more == [] {
      assert out + more == out && tags + Repeat(g, 0) == tags;
    } else {
      FromFileConcat(out, tags, more[..n], g, f);
      assert (out + more)[..|out| + n] == out + more[..n];
      assert (tags + Repeat(g, n + 1))[..|out| + n] == tags + Repeat(g, n);
      assert more == more[..n] + [more[n]];
    }
  }

  function Total(rest: seq<seq<Row>>): nat {
    if rest == [] then 0 else Total(rest[..|rest| - 1]) + |rest[|rest| - 1]|
  }

  lemma {:induction false} TotalUpdate(rest: seq<seq<Row>>, f: nat, v: seq<Row>)
    requires f < |rest|
    ensures Total(rest[f := v]) == Total(rest) - |rest[f]| + |v|
  {
    var n := |rest| - 1;
    if f == n {
      assert rest[f := v][..n] == rest[..n];
    } else {
      TotalUpdate(rest[..n], f, v);
      assert rest[f := v][..n] == rest[..n][f := v];
    }
  }

  // ---------- the window of expected ids ----------

  /** Steps of the rotation from order p to order q, in 1..n. */
  function Gap(p: int, q: int, n: int): int {
    if p < q then q - p else q - p + n
  }

  /** The slot the loop visits next. */
  function NextOrder(orders: seq<Slot>, i: nat): int
    requires orders != []
  {
    if i < |orders| then orders[i].order else orders[0].order
  }

  /** Files dealt round-robin: ids positive and ascending, one residue a file, no residue twice. */
  ghost predicate DealtFile(file: seq<Row>, n: nat)
    requires n > 0
  {
    && (forall k :: 0 <= k < |file| ==> file[k].event_id >= 1 && (file[k].event_id - file[0].event_id) % n == 0)
    && (forall j, k :: 0 <= j < k < |file| ==> file[j].event_id <= file[k].event_id)
  }

  ghost predicate DealtFiles(files: seq<seq<Row>>) {
    && (forall f :: 0 <= f < |files| ==> DealtFile(files[f], |files|))
    && (forall f, g :: 0 <= f < g < |files| && files[f] != [] && files[g] != [] ==>
          Order(files[f][0].event_id, |files|) != Order(files[g][0].event_id, |files|))
  }

  ghost predicate Ascending(out: seq<Row>) {
    forall j, k :: 0 <= j < k < |out| ==> out[j].event_id <= out[k].event_id
  }

  /** What every row still to be printed by an active file owes the rotation. */
  ghost predicate InWindow(orders: seq<Slot>, rest: seq<seq<Row>>, i: nat, expected: int, n: int)
    requires forall x :: x in orders ==> x.file < |rest| && rest[x.file] != []
  {
    orders != [] ==>
      forall x :: x in orders ==>
        rest[x.file][0].event_id > expected - Gap(x.order, NextOrder(orders, i), n)
  }

  lemma OrderCongruent(id: int, n: int)
    requires n > 0 && id >= 1
    ensures (id - Order(id, n)) % n == 0
  {
    var q := id / n;
    assert id == q * n + id % n;
    if id % n == 0 { ModMultiple(q - 1, n); assert (q - 1) * n == q * n - n; } else { ModMultiple(q, n); }
  }

  /**
    The residue argument: of two ids in different residue classes inside the same window,
    the one whose class comes up now is the smaller.
  */
  lemma NoClash(x: int, y: int, p: int, q: int, expected: int, n: int)
    requires n > 0 && 1 <= p <= n && 1 <= q <= n && p != q
    requires (x - q) % n == 0 && (y - p) % n == 0
    requires x <= expected && y > expected - Gap(p, q, n)
    ensures x < y
  {
    var a, b := (x - q) / n, (y - p) / n;
    assert x == q + a * n && y == p + b * n;
    if y <= x {
      var k := a - b;
      Distribute(b, k, n);
      assert x - y == q - p + k * n;
      Scaled(k, n);
      Scaled(k - 1, n);
      Scaled(k + 1, n);
      Distribute(k - 1, 1, n);
      Distribute(k, 1, n);
    }
  }

  // ---------- what the loop keeps ----------

  /** The rows printed from each file so far are the rows of out with that file's tag. */
  ghost predicate Tagged(out: seq<Row>, tags: seq<nat>, done: seq<seq<Row>>) {
    && |out| == |tags|
    && (forall k :: 0 <= k < |tags| ==> tags[k] < |done|)
    && (forall f :: 0 <= f < |done| ==> FromFile(out, tags, f) == done[f])
  }

  lemma TagMore(out: seq<Row>, tags: seq<nat>, done: seq<seq<Row>>, f: nat, printed: seq<Row>)
    requires Tagged(out, tags, done) && f < |done|
    ensures Tagged(out + printed, tags + Repeat(f, |printed|), done[f := done[f] + printed])
  {
    forall g | 0 <= g < |done|
      ensures FromFile(out + printed, tags + Repeat(f, |printed|), g) == done[f := done[f] + printed][g]
    {
      FromFileConcat(out, tags, printed, f, g);
    }
  }

  /** True of any input: each file is what was printed from it followed by what is left of it. */
  ghost predicate Consistent(files: seq<seq<Row>>, orders: seq<Slot>, rest: seq<seq<Row>>, done: seq<seq<Row>>) {
    && |rest| == |files| && |done| == |files|
    && (forall f :: 0 <= f < |files| ==> done[f] + rest[f] == files[f])
    && (forall f :: 0 <= f < |files| && !Live(files[f]) ==> rest[f] == files[f])
    && (forall f :: 0 <= f < |files| && Live(files[f]) && rest[f] != [] ==>
          Slot(Order(files[f][0].event_id, |files|), f) in orders)
    && Active(files, orders, rest)
  }

  ghost predicate Active(files: seq<seq<Row>>, orders: seq<Slot>, rest: seq<seq<Row>>) {
    && |rest| == |files|
    && Ordered(orders)
    && (forall x :: x in orders ==> x.file < |files| && rest[x.file] != [] && Live(files[x.file])
                                    && x.order == Order(files[x.file][0].event_id, |files|))
  }

  /** True of dealt files: the output is ascending and nothing left is due before its end. */
  ghost predicate Sequenced(files: seq<seq<Row>>, orders: seq<Slot>, rest: seq<seq<Row>>,
                            out: seq<Row>, i: nat, expected: int)
    requires Active(files, orders, rest)
  {
    && Ascending(out)
    && InWindow(orders, rest, i, expected, |files|)
    && (out != [] ==> forall x :: x in orders ==> out[|out| - 1].event_id <= rest[x.file][0].event_id)
  }

  function Without(s: seq<Slot>, i: nat): seq<Slot>
    requires i < |s|
  {
    s[..i] + s[i + 1..]
  }

  lemma FileOnce(files: seq<seq<Row>>, orders: seq<Slot>, rest: seq<seq<Row>>, i: nat, j: nat)
    requires Active(files, orders, rest) && i < |orders| && j < |orders| && i != j
    ensures orders[i].file != orders[j].file
    ensures DealtFiles(files) ==> orders[i].order != orders[j].order
  {
    assert orders[i] in orders && orders[j] in orders;
    assert i < j ==> Before(orders[i], orders[j]);
    assert j < i ==> Before(orders[j], orders[i]);
  }

  /** Taking a file that has run dry out of the rotation leaves exactly the files with rows left. */
  lemma RotationKeeps(files: seq<seq<Row>>, orders: seq<Slot>, rest: seq<seq<Row>>, i: nat, left: seq<Row>)
    requires Active(files, orders, rest) && i < |orders| && orders[i] in orders
    ensures Active(files, if left == [] then Without(orders, i) else orders, rest[orders[i].file := left])
  {
    OrderedWithout(orders, i);
    var orders' := if left == [] then Without(orders, i) else orders;
    forall x: Slot | x in orders' ensures x in orders && (left == [] ==> x.file != orders[i].file) {
      var j := SlotIn(orders, orders', i, left == [], x);
      if j != i { FileOnce(files, orders, rest, i, j); }
    }
  }

  lemma OrderedWithout(orders: seq<Slot>, i: nat)
    requires Ordered(orders) && i < |orders|
    ensures Ordered(Without(orders, i))
  {
    var s := Without(orders, i);
    forall j, k | 0 <= j < k < |s| ensures Before(s[j], s[k]) {
      assert s[j] == orders[if j < i then j else j + 1];
      assert s[k] == orders[if k < i then k else k + 1];
    }
  }

  lemma StillListed(orders: seq<Slot>, i: nat, x: Slot)
    requires i < |orders| && x in orders && x != orders[i]
    ensures x in Without(orders, i)
  {
    var j :| 0 <= j < |orders| && orders[j] == x;
    assert Without(orders, i)[if j < i then j else j - 1] == x;
  }

  /** Printing some rows of the file in slot i keeps the books. */
  lemma PrintKeeps(files: seq<seq<Row>>, orders: seq<Slot>, rest: seq<seq<Row>>, done: seq<seq<Row>>,
                   i: nat, f: nat, printed: seq<Row>, left: seq<Row>)
    requires Consistent(files, orders, rest, done) && i < |orders|
    requires orders[i] in orders && f == orders[i].file && rest[f] == printed + left
    ensures Consistent(files, if left == [] then Without(orders, i) else orders, rest[f := left],
                       done[f := done[f] + printed])
  {
    RotationKeeps(files, orders, rest, i, left);
    Associate(done[f], printed, left);
    forall g | 0 <= g < |files| && Live(files[g]) && rest[f := left][g] != []
      ensures Slot(Order(files[g][0].event_id, |files|), g) in if left == [] then Without(orders, i) else orders
    {
      if left == [] { StillListed(orders, i, Slot(Order(files[g][0].event_id, |files|), g)); }
    }
  }

  lemma Associate(a: seq<Row>, b: seq<Row>, c: seq<Row>)
    ensures a + (b + c) == (a + b) + c
  {}

  /** A file still to be read holds dealt ids of its own residue class. */
  lemma RestIsDealt(files: seq<seq<Row>>, orders: seq<Slot>, rest: seq<seq<Row>>, done: seq<seq<Row>>, x: Slot)
    requires Consistent(files, orders, rest, done) && DealtFiles(files) && x in orders
    ensures Ascending(rest[x.file])
    ensures forall r :: r in rest[x.file] ==> r.event_id >= 1 && (r.event_id - x.order) % |files| == 0
  {
    var file, before := files[x.file], done[x.file];
    assert file == before + rest[x.file];
    forall j, k | 0 <= j < k < |rest[x.file]| ensures rest[x.file][j].event_id <= rest[x.file][k].event_id {
      assert rest[x.file][j] == file[|before| + j] && rest[x.file][k] == file[|before| + k];
    }
    forall r | r in rest[x.file] ensures r.event_id >= 1 && (r.event_id - x.order) % |files| == 0 {
      var k :| 0 <= k < |rest[x.file]| && rest[x.file][k] == r;
      assert r == file[|before| + k];
      OrderCongruent(file[0].event_id, |files|);
      ModAddBoth(r.event_id - file[0].event_id, file[0].event_id - x.order, |files|);
    }
  }

  /** Everything printed from slot i comes before everything left in the other files. */
  lemma PrintedIsDue(files: seq<seq<Row>>, orders: seq<Slot>, rest: seq<seq<Row>>, done: seq<seq<Row>>,
                     i: nat, expected: int, r: Row, x: Slot)
    requires Consistent(files, orders, rest, done) && DealtFiles(files) && i < |orders|
    requires InWindow(orders, rest, i, expected, |files|)
    requires x in orders && x.order != orders[i].order && orders[i] in orders
    requires r in rest[orders[i].file] && r.event_id <= expected
    ensures r.event_id < rest[x.file][0].event_id
  {
    RestIsDealt(files, orders, rest, done, x);
    RestIsDealt(files, orders, rest, done, orders[i]);
    assert rest[x.file][0] in rest[x.file];
    NoClash(r.event_id, rest[x.file][0].event_id, x.order, orders[i].order, expected, |files|);
  }

  /** Moving on from slot i, the rotation takes every other file at least one step further. */
  lemma GapGrows(files: seq<seq<Row>>, orders: seq<Slot>, rest: seq<seq<Row>>, i: nat, j: nat)
    requires Active(files, orders, rest) && DealtFiles(files)
    requires i < |orders| && j < |orders|
    ensures var n, q, next, p := |files|, orders[i].order, NextOrder(orders, i + 1), orders[j].order;
            (j != i ==> Gap(p, next, n) >= Gap(p, q, n) + 1) && Gap(q, next, n) >= 1
  {
    assert orders[i] in orders && orders[j] in orders && orders[0] in orders;
    if i != 0 { FileOnce(files, orders, rest, i, 0); assert Before(orders[0], orders[i]); }
    if j != 0 { FileOnce(files, orders, rest, j, 0); assert Before(orders[0], orders[j]); }
    if j < i { FileOnce(files, orders, rest, i, j); assert Before(orders[j], orders[i]); }
    if i < j { FileOnce(files, orders, rest, i, j); assert Before(orders[i], orders[j]); }
    if i + 1 < |orders| {
      assert orders[i + 1] in orders;
      FileOnce(files, orders, rest, i, i + 1);
      assert Before(orders[i], orders[i + 1]);
      if i + 1 < j { FileOnce(files, orders, rest, i + 1, j); assert Before(orders[i + 1], orders[j]); }
    }
  }

  /** A visit that prints keeps a dealt run in sequence. */
  lemma PrintSequenced(files: seq<seq<Row>>, orders: seq<Slot>, rest: seq<seq<Row>>, out: seq<Row>, done: seq<seq<Row>>,
                       i: nat, expected: int, printed: seq<Row>, left: seq<Row>)
    requires Consistent(files, orders, rest, done) && DealtFiles(files) && i < |orders|
    requires Sequenced(files, orders, rest, out, i, expected)
    requires orders[i] in orders && rest[orders[i].file] == printed + left && printed != []
    requires forall r :: r in printed ==> r.event_id <= expected
    requires left != [] ==> left[0].event_id > expected
    ensures var orders', rest' := if left == [] then Without(orders, i) else orders, rest[orders[i].file := left];
            Active(files, orders', rest')
            && Sequenced(files, orders', rest', out + printed, if left == [] then i else i + 1, expected + 1)
  {
    var f := orders[i].file;
    var orders' := if left == [] then Without(orders, i) else orders;
    RotationKeeps(files, orders, rest, i, left);
    RestIsDealt(files, orders, rest, done, orders[i]);
    PrintedAscending(out, printed, left);
    var last := printed[|printed| - 1];
    forall x: Slot | x in orders'
      ensures last.event_id <= rest[f := left][x.file][0].event_id
      ensures rest[f := left][x.file][0].event_id
              > expected + 1 - Gap(x.order, NextOrder(orders', if left == [] then i else i + 1), |files|)
    {
      HeadAfterVisit(files, orders, orders', rest, done, i, expected, f, printed, left, x);
    }
  }

  lemma HeadAfterVisit(files: seq<seq<Row>>, orders: seq<Slot>, orders': seq<Slot>, rest: seq<seq<Row>>,
                       done: seq<seq<Row>>, i: nat, expected: int, f: nat, printed: seq<Row>, left: seq<Row>, x: Slot)
    requires Consistent(files, orders, rest, done) && DealtFiles(files) && i < |orders|
    requires InWindow(orders, rest, i, expected, |files|)
    requires orders' == (if left == [] then Without(orders, i) else orders) && x in orders'
    requires orders[i] in orders && f == orders[i].file && rest[f] == printed + left && printed != []
    requires forall r :: r in printed ==> r.event_id <= expected
    requires left != [] ==> left[0].event_id > expected
    requires Ascending(rest[f])
    requires Active(files, orders', rest[f := left])
    ensures var head := rest[f := left][x.file][0].event_id;
            printed[|printed| - 1].event_id <= head
            && head > expected + 1 - Gap(x.order, NextOrder(orders', if left == [] then i else i + 1), |files|)
  {
    var j := SlotIn(orders, orders', i, left == [], x);
    OthersWait(files, orders, rest, done, i, j, expected, printed, left);
    assert NextOrder(orders', if left == [] then i else i + 1) == NextOrder(orders, i + 1);
  }

  /** After the visit to slot i, slot j owes nothing before the end of the output or of its window. */
  lemma OthersWait(files: seq<seq<Row>>, orders: seq<Slot>, rest: seq<seq<Row>>, done: seq<seq<Row>>,
                   i: nat, j: nat, expected: int, printed: seq<Row>, left: seq<Row>)
    requires Consistent(files, orders, rest, done) && DealtFiles(files) && i < |orders| && j < |orders|
    requires InWindow(orders, rest, i, expected, |files|)
    requires orders[i] in orders && orders[j] in orders
    requires rest[orders[i].file] == printed + left && printed != []
    requires forall r :: r in printed ==> r.event_id <= expected
    requires j == i ==> left != [] && left[0].event_id > expected
    ensures var head := if j == i then left[0] else rest[orders[j].file][0];
            printed[|printed| - 1].event_id <= head.event_id
            && head.event_id > expected + 1 - Gap(orders[j].order, NextOrder(orders, i + 1), |files|)
    ensures j != i ==> orders[j].file != orders[i].file
  {
    var last := printed[|printed| - 1];
    assert last in printed;
    GapGrows(files, orders, rest, i, j);
    if j != i {
      FileOnce(files, orders, rest, i, j);
      assert (printed + left)[|printed| - 1] == last;
      PrintedIsDue(files, orders, rest, done, i, expected, last, orders[j]);
    }
  }

  lemma SlotIn(orders: seq<Slot>, orders': seq<Slot>, i: nat, erased: bool, x: Slot) returns (j: nat)
    requires i < |orders| && orders' == (if erased then Without(orders, i) else orders) && x in orders'
    ensures j < |orders| && orders[j] == x && (erased ==> j != i) && x in orders
  {
    var k :| 0 <= k < |orders'| && orders'[k] == x;
    j := if erased && k >= i then k + 1 else k;
  }

  lemma PrintedAscending(out: seq<Row>, printed: seq<Row>, left: seq<Row>)
    requires Ascending(out) && Ascending(printed + left) && printed != []
    requires out != [] ==> out[|out| - 1].event_id <= (printed + left)[0].event_id
    ensures Ascending(out + printed)
  {
    var s := out + printed;
    forall j, k | 0 <= j < k < |s| ensures s[j].event_id <= s[k].event_id {
      if j < |out| <= k {
        var m := k - |out|;
        assert out[j].event_id <= out[|out| - 1].event_id;
        assert (printed + left)[0].event_id <= (printed + left)[m].event_id;
        assert s[k] == (printed + left)[m];
      } else if |out| <= j {
        assert s[j] == (printed + left)[j - |out|] && s[k] == (printed + left)[k - |out|];
      }
    }
  }

  /** A visit that prints nothing keeps a dealt run in sequence. */
  lemma SkipSequenced(files: seq<seq<Row>>, orders: seq<Slot>, rest: seq<seq<Row>>, out: seq<Row>, i: nat,
                      expected: int)
    requires Active(files, orders, rest) && DealtFiles(files) && i < |orders|
    requires Sequenced(files, orders, rest, out, i, expected)
    requires orders[i] in orders && rest[orders[i].file][0].event_id > expected
    ensures Sequenced(files, orders, rest, out, i + 1, expected + 1)
  {
    forall x: Slot | x in orders
      ensures rest[x.file][0].event_id > expected + 1 - Gap(x.order, NextOrder(orders, i + 1), |files|)
    {
      var j := SlotIn(orders, orders, i, false, x);
      GapGrows(files, orders, rest, i, j);
    }
  }

  // ---------- the merge ----------

  ghost predicate EventsUpTo(rest: seq<seq<Row>>, bound: int) {
    forall f, k :: 0 <= f < |rest| && 0 <= k < |rest[f]| ==> rest[f][k].event_id <= bound
  }

  lemma {:induction false} SomeBound(files: seq<seq<Row>>) returns (bound: int)
    ensures EventsUpTo(files, bound)
  {
    bound := 0;
    for f := 0 to |files|
      invariant EventsUpTo(files[..f], bound)
    {
      for k := 0 to |files[f]|
        invariant EventsUpTo(files[..f], bound)
        invariant forall j :: 0 <= j < k ==> files[f][j].event_id <= bound
      {
        if files[f][k].event_id > bound { bound := files[f][k].event_id; }
      }
    }
    assert files[..|files|] == files;
  }

  /** Everything the merge loop keeps. */
  ghost predicate Inv(files: seq<seq<Row>>, orders: seq<Slot>, rest: seq<seq<Row>>, out: seq<Row>, tags: seq<nat>,
                      done: seq<seq<Row>>, i: nat, expected: int, bound: int)
  {
    && i <= |orders|
    && Consistent(files, orders, rest, done) && Tagged(out, tags, done)
    && EventsUpTo(rest, bound)
    && (DealtFiles(files) ==> Sequenced(files, orders, rest, out, i, expected))
  }

  lemma PrintVisit(files: seq<seq<Row>>, orders: seq<Slot>, rest: seq<seq<Row>>, out: seq<Row>, tags: seq<nat>,
                   done: seq<seq<Row>>, i: nat, expected: int, bound: int, f: nat, printed: seq<Row>, left: seq<Row>)
    requires Inv(files, orders, rest, out, tags, done, i, expected, bound) && i < |orders|
    requires f == orders[i].file && f < |rest| && f < |done| && rest[f] == printed + left && printed != []
    requires forall r :: r in printed ==> r.event_id <= expected
    requires left != [] ==> left[0].event_id > expected
    ensures Inv(files, if left == [] then Without(orders, i) else orders, rest[f := left],
                out + printed, tags + Repeat(f, |printed|), done[f := done[f] + printed],
                if left == [] then i else i + 1, expected + 1, bound)
    ensures Total(rest[f := left]) < Total(rest)
  {
    assert orders[i] in orders;
    PrintKeeps(files, orders, rest, done, i, f, printed, left);
    if DealtFiles(files) { PrintSequenced(files, orders, rest, out, done, i, expected, printed, left); }
    TagMore(out, tags, done, f, printed);
    TotalUpdate(rest, f, left);
    BoundKept(rest, f, printed, left, bound);
  }

  lemma SkipVisit(files: seq<seq<Row>>, orders: seq<Slot>, rest: seq<seq<Row>>, out: seq<Row>, tags: seq<nat>,
                  done: seq<seq<Row>>, i: nat, expected: int, bound: int)
    requires Inv(files, orders, rest, out, tags, done, i, expected, bound) && i < |orders|
    requires orders[i] in orders && rest[orders[i].file][0].event_id > expected
    ensures Inv(files, orders, rest, out, tags, done, i + 1, expected + 1, bound) && expected < bound
  {
    if DealtFiles(files) { SkipSequenced(files, orders, rest, out, i, expected); }
    assert rest[orders[i].file][0].event_id <= bound;
  }

  lemma Wrap(files: seq<seq<Row>>, orders: seq<Slot>, rest: seq<seq<Row>>, out: seq<Row>, tags: seq<nat>,
             done: seq<seq<Row>>, expected: int, bound: int)
    requires Inv(files, orders, rest, out, tags, done, |orders|, expected, bound)
    ensures Inv(files, orders, rest, out, tags, done, 0, expected, bound)
  {}

  lemma BoundKept(rest: seq<seq<Row>>, f: nat, printed: seq<Row>, left: seq<Row>, bound: int)
    requires f < |rest| && rest[f] == printed + left && EventsUpTo(rest, bound)
    ensures EventsUpTo(rest[f := left], bound)
  {
    forall k | 0 <= k < |left| ensures left[k].event_id <= bound {
      assert left[k] == rest[f][|printed| + k];
    }
  }

  /**
    The sorted merge. Whatever the files hold, it terminates and prints every row of every
    file that takes part exactly once, each file's rows in their own order. If the files
    were dealt round-robin, the event ids come out in ascending order.
  */
  method DoItSort(files: seq<seq<Row>>) returns (out: seq<Row>, ghost tags: seq<nat>)
    ensures |out| == |tags| && forall k :: 0 <= k < |tags| ==> tags[k] < |files|
    ensures forall f :: 0 <= f < |files| ==>
              FromFile(out, tags, f) == if files[f] != [] && files[f][0].event_id != 0 then files[f] else []
    ensures DealtFiles(files) ==> Ascending(out)
  {
    var orders := DetermineOrder(files);
    var rest := files;
    out, tags := [], [];
    var expected := 1;
    ghost var bound := SomeBound(files);
    ghost var done := NothingPrinted(|files|);
    Begin(files, orders, bound);
    while orders != []
      invariant Inv(files, orders, rest, out, tags, done, 0, expected, bound)
      decreases Total(rest), if expected > bound then 0 else bound + 1 - expected
    {
      orders, rest, out, tags, done, expected := GoRound(files, orders, rest, out, tags, done, expected, bound);
    }
    AllPrinted(files, rest, done);
  }

  /** The for loop: one round over the files. Either it prints, or nothing is due yet. */
  method GoRound(ghost files: seq<seq<Row>>, orders0: seq<Slot>, rest0: seq<seq<Row>>, out0: seq<Row>,
                 ghost tags0: seq<nat>, ghost done0: seq<seq<Row>>, expected0: int, ghost bound: int)
      returns (orders: seq<Slot>, rest: seq<seq<Row>>, out: seq<Row>,
               ghost tags: seq<nat>, ghost done: seq<seq<Row>>, expected: int)
    requires Inv(files, orders0, rest0, out0, tags0, done0, 0, expected0, bound) && orders0 != []
    ensures Inv(files, orders, rest, out, tags, done, 0, expected, bound)
    ensures Total(rest) < Total(rest0) || (Total(rest) == Total(rest0) && expected0 < expected && expected0 <= bound)
  {
    orders, rest, out, tags, done, expected := orders0, rest0, out0, tags0, done0, expected0;
    var i: nat := 0;
    while i < |orders|
      invariant Inv(files, orders, rest, out, tags, done, i, expected, bound)
      invariant Total(rest) < Total(rest0) || (Total(rest) == Total(rest0) && orders != [] && expected == expected0 + i)
      invariant Total(rest) == Total(rest0) && i > 0 ==> expected0 <= bound
      decreases Total(rest), |orders| - i
    {
      orders, rest, out, tags, done, i := Visit(files, orders, rest, out, tags, done, i, expected, bound);
      expected := expected + 1;
    }
    Wrap(files, orders, rest, out, tags, done, expected, bound);
  }

  /** The body of the for loop: print what is due from slot i, and drop the file if that was its end. */
  method Visit(ghost files: seq<seq<Row>>, orders0: seq<Slot>, rest0: seq<seq<Row>>, out0: seq<Row>,
               ghost tags0: seq<nat>, ghost done0: seq<seq<Row>>, i0: nat, expected: int, ghost bound: int)
      returns (orders: seq<Slot>, rest: seq<seq<Row>>, out: seq<Row>,
               ghost tags: seq<nat>, ghost done: seq<seq<Row>>, i: nat)
    requires Inv(files, orders0, rest0, out0, tags0, done0, i0, expected, bound) && i0 < |orders0|
    ensures Inv(files, orders, rest, out, tags, done, i, expected + 1, bound)
    ensures Total(rest) < Total(rest0)
            || (Total(rest) == Total(rest0) && orders == orders0 && i == i0 + 1 && expected < bound)
  {
    orders, rest, out, tags, done, i := orders0, rest0, out0, tags0, done0, i0;
    var f := orders[i].file;
    assert orders[i] in orders;
    if rest[f][0].event_id <= expected {
      var printed, left := Drain(rest[f], expected);
      PrintVisit(files, orders, rest, out, tags, done, i, expected, bound, f, printed, left);
      out, tags := out + printed, tags + Repeat(f, |printed|);
      rest, done := rest[f := left], done[f := done[f] + printed];
      if left == [] {
        orders := Without(orders, i);
      } else {
        i := i + 1;
      }
    } else {
      SkipVisit(files, orders, rest, out, tags, done, i, expected, bound);
      i := i + 1;
    }
  }

  /** Once the rotation is empty, every file that takes part has been printed to its end. */
  lemma AllPrinted(files: seq<seq<Row>>, rest: seq<seq<Row>>, done: seq<seq<Row>>)
    requires Consistent(files, [], rest, done)
    ensures forall f :: 0 <= f < |files| ==> done[f] == if Live(files[f]) then files[f] else []
  {
    forall f | 0 <= f < |files| ensures done[f] == if Live(files[f]) then files[f] else [] {
      assert done[f] + rest[f] == files[f];
      if Live(files[f]) { assert done[f] + [] == done[f]; } else { assert |done[f]| == 0; }
    }
  }

  function NothingPrinted(n: nat): (r: seq<seq<Row>>)
    ensures |r| == n && forall f :: 0 <= f < n ==> r[f] == []
  {
    seq(n, f => [])
  }

  lemma Begin(files: seq<seq<Row>>, orders: seq<Slot>, bound: int)
    requires SlotsOf(orders, files, |files|) && EventsUpTo(files, bound)
    ensures Inv(files, orders, files, [], [], NothingPrinted(|files|), 0, 1, bound)
  {
    assert forall f :: 0 <= f < |files| ==> FromFile([], [], f) == [];
    if DealtFiles(files) { FirstWindow(files, orders); }
  }

  lemma FirstWindow(files: seq<seq<Row>>, orders: seq<Slot>)
    requires Active(files, orders, files) && DealtFiles(files)
    ensures InWindow(orders, files, 0, 1, |files|)
  {
    forall x: Slot | x in orders
      ensures files[x.file][0].event_id > 1 - Gap(x.order, NextOrder(orders, 0), |files|)
    {
      assert DealtFile(files[x.file], |files|);
      assert orders[0] in orders;
    }
  }

  // ---------- eve, then kat ----------

  /**
    The two ends of the pipeline together. The ids 1 to n are dealt to the processes, each
    process leaves a file whose rows carry ids it was dealt, in ascending order and with any
    of them missing or repeated; process[f] is the process whose file is number f on the
    command line. Such files are dealt files, so the merge prints them in event order.
  */
  lemma EveFilesAreDealt(files: seq<seq<Row>>, n: nat, process: seq<int>)
    requires |process| == |files|
    requires forall f :: 0 <= f < |files| ==> 1 <= process[f] <= |files|
    requires forall f, g :: 0 <= f < g < |files| ==> process[f] != process[g]
    requires forall f :: 0 <= f < |files| ==> Ascending(files[f])
    requires forall f, k :: 0 <= f < |files| && 0 <= k < |files[f]| ==>
               files[f][k].event_id in EventPartition.Dealt(EventPartition.Ids(n), process[f], |files|)
    ensures DealtFiles(files)
  {
    forall f, k | 0 <= f < |files| && 0 <= k < |files[f]|
      ensures files[f][k].event_id >= 1 && (files[f][k].event_id - process[f]) % |files| == 0
    {
      EventPartition.DealtIds(n, process[f], |files|);
    }
    forall f | 0 <= f < |files| ensures DealtFile(files[f], |files|) {
      forall k | 0 <= k < |files[f]| ensures (files[f][k].event_id - files[f][0].event_id) % |files| == 0 {
        SameResidue(files[f][k].event_id, files[f][0].event_id, process[f], |files|);
      }
    }
    forall f | 0 <= f < |files| && files[f] != [] ensures Order(files[f][0].event_id, |files|) == process[f] {
      OrderIsProcess(files[f][0].event_id, process[f], |files|);
    }
  }

  lemma SameResidue(x: int, y: int, p: int, n: int)
    requires n > 0 && (x - p) % n == 0 && (y - p) % n == 0
    ensures (x - y) % n == 0
  {
    CongruentDifference(x - p, y - p, n);
  }

  lemma OrderIsProcess(x: int, p: int, n: int)
    requires 1 <= p <= n && x >= 1 && (x - p) % n == 0
    ensures Order(x, n) == p
  {
    CongruentDifference(x, p, n);
    if p < n { SmallMod(p, n); } else { ModMultiple(1, n); }
  }
}
