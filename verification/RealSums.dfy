/** Sums of real numbers over sequences: in whole, by group, and over a list of positions. */
module RealSums {

  function Sum(s: seq<real>): real {
    if s == [] then 0.0 else Sum(s[..|s| - 1]) + s[|s| - 1]
  }

  ghost predicate NonNegative(s: seq<real>) { forall i :: 0 <= i < |s| ==> s[i] >= 0.0 }

  function Zeros(n: nat): (z: seq<real>)
    ensures |z| == n && forall i :: 0 <= i < n ==> z[i] == 0.0
  {
    if n == 0 then [] else Zeros(n - 1) + [0.0]
  }

  lemma SumSnoc(s: seq<real>, x: real)
    ensures Sum(s + [x]) == Sum(s) + x
  {
    assert (s + [x])[..|s|] == s;
  }

  lemma {:induction false} SumConcat(s: seq<real>, t: seq<real>)
    ensures Sum(s + t) == Sum(s) + Sum(t)
  {
    if t == [] {
      assert s + t == s;
    } else {
      var n := |t| - 1;
      SumConcat(s, t[..n]);
      assert (s + t)[..|s| + n] == s + t[..n];
    }
  }

  lemma {:induction false} SumUpdate(s: seq<real>, i: nat, v: real)
    requires i < |s|
    ensures Sum(s[i := v]) == Sum(s) - s[i] + v
  {
    var n := |s| - 1;
    if i == n {
      assert s[i := v][..n] == s[..n];
    } else {
      SumUpdate(s[..n], i, v);
      assert s[i := v][..n] == s[..n][i := v];
    }
  }

  lemma {:induction false} SumNonNegative(s: seq<real>)
    requires NonNegative(s)
    ensures Sum(s) >= 0.0
    ensures forall i :: 0 <= i < |s| ==> s[i] <= Sum(s)
  {
    if s != [] { SumNonNegative(s[..|s| - 1]); }
  }

  lemma {:induction false} SumMonotone(s: seq<real>, t: seq<real>)
    requires |s| == |t| && forall i :: 0 <= i < |s| ==> s[i] <= t[i]
    ensures Sum(s) <= Sum(t)
  {
    if s != [] { SumMonotone(s[..|s| - 1], t[..|t| - 1]); }
  }

  /** Two sequences one of which nowhere exceeds the other have the same sum only if they are equal. */
  lemma {:induction false} SumStrict(s: seq<real>, t: seq<real>, k: nat)
    requires |s| == |t| && k < |s| && s[k] < t[k]
    requires forall i :: 0 <= i < |s| ==> s[i] <= t[i]
    ensures Sum(s) < Sum(t)
  {
    var n := |s| - 1;
    if k == n { SumMonotone(s[..n], t[..n]); } else { SumStrict(s[..n], t[..n], k); }
  }

  /** Parts that are nowhere more than the whole add up to it exactly if each is the whole. */
  lemma SumsAgree(parts: seq<real>, wholes: seq<real>)
    requires |parts| == |wholes| && forall j :: 0 <= j < |parts| ==> parts[j] <= wholes[j]
    ensures Sum(parts) <= Sum(wholes)
    ensures Sum(parts) == Sum(wholes) <==> forall j :: 0 <= j < |parts| ==> parts[j] == wholes[j]
  {
    SumMonotone(parts, wholes);
    if j :| 0 <= j < |parts| && parts[j] != wholes[j] {
      SumStrict(parts, wholes, j);
    } else {
      assert parts == wholes;
    }
  }

  /** A product, named so that proofs about sums need no arithmetic of products. */
  function Times(a: real, b: real): real { a * b }

  lemma TimesAdds(a: real, b: real, c: real)
    ensures Times(a + b, c) == Times(a, c) + Times(b, c)
  {}

  lemma TimesZero(c: real)
    ensures Times(0.0, c) == 0.0 && Times(c, 0.0) == 0.0
  {}

  lemma TimesNonNegative(a: real, b: real)
    requires a >= 0.0 && b >= 0.0
    ensures Times(a, b) >= 0.0
  {}

  lemma TimesOne(a: real)
    ensures Times(a, 1.0) == a && Times(1.0, a) == a
  {}

  lemma {:induction false} SumScale(s: seq<real>, t: seq<real>, c: real)
    requires |s| == |t| && forall i :: 0 <= i < |s| ==> t[i] == Times(s[i], c)
    ensures Sum(t) == Times(Sum(s), c)
  {
    TimesZero(c);
    if s != [] {
      SumScale(s[..|s| - 1], t[..|t| - 1], c);
      TimesAdds(Sum(s[..|s| - 1]), s[|s| - 1], c);
    }
  }

  // ---------- by group ----------

  /** The sum of the elements whose owner is k. */
  function SumWhere(s: seq<real>, owner: seq<nat>, k: nat): real
    requires |s| == |owner|
  {
    if s == [] then 0.0
    else
      var n := |s| - 1;
      SumWhere(s[..n], owner[..n], k) + if owner[n] == k then s[n] else 0.0
  }

  /** The sums of the groups add up to the sum of the whole. */
  lemma {:induction false} GroupsSum(s: seq<real>, owner: seq<nat>, groups: seq<real>)
    requires |s| == |owner|
    requires forall i :: 0 <= i < |owner| ==> owner[i] < |groups|
    requires forall k :: 0 <= k < |groups| ==> groups[k] == SumWhere(s, owner, k)
    ensures Sum(groups) == Sum(s)
  {
    if s == [] {
      ZeroSum(groups);
    } else {
      var n := |s| - 1;
      var o := owner[n];
      var before := groups[o := groups[o] - s[n]];
      GroupsSum(s[..n], owner[..n], before);
      SumUpdate(groups, o, groups[o] - s[n]);
    }
  }

  lemma {:induction false} ZeroSum(s: seq<real>)
    requires forall i :: 0 <= i < |s| ==> s[i] == 0.0
    ensures Sum(s) == 0.0
  {
    if s != [] { ZeroSum(s[..|s| - 1]); }
  }

  /** Grouping twice is grouping once by the group's group. */
  lemma {:induction false} GroupsCompose(s: seq<real>, owner: seq<nat>, groups: seq<real>,
                                         parent: seq<nat>, top: seq<nat>, k: nat)
    requires |s| == |owner| == |top| && |parent| == |groups|
    requires forall i :: 0 <= i < |owner| ==> owner[i] < |groups| && top[i] == parent[owner[i]]
    requires forall g :: 0 <= g < |groups| ==> groups[g] == SumWhere(s, owner, g)
    ensures SumWhere(s, top, k) == SumWhere(groups, parent, k)
  {
    if s == [] {
      ZeroSumWhere(groups, parent, k);
    } else {
      var n := |s| - 1;
      var o := owner[n];
      var before := groups[o := groups[o] - s[n]];
      GroupsCompose(s[..n], owner[..n], before, parent, top[..n], k);
      SumWhereUpdate(groups, parent, k, o, groups[o] - s[n]);
    }
  }

  lemma {:induction false} ZeroSumWhere(s: seq<real>, owner: seq<nat>, k: nat)
    requires |s| == |owner| && forall i :: 0 <= i < |s| && owner[i] == k ==> s[i] == 0.0
    ensures SumWhere(s, owner, k) == 0.0
  {
    if s != [] { ZeroSumWhere(s[..|s| - 1], owner[..|s| - 1], k); }
  }

  lemma {:induction false} SumWhereUpdate(s: seq<real>, owner: seq<nat>, k: nat, i: nat, v: real)
    requires |s| == |owner| && i < |s|
    ensures SumWhere(s[i := v], owner, k) == SumWhere(s, owner, k) + if owner[i] == k then v - s[i] else 0.0
  {
    var n := |s| - 1;
    if i == n {
      assert s[i := v][..n] == s[..n];
    } else {
      SumWhereUpdate(s[..n], owner[..n], k, i, v);
      assert s[i := v][..n] == s[..n][i := v];
    }
  }

  lemma {:induction false} SumWhereNonNegative(s: seq<real>, owner: seq<nat>, k: nat)
    requires |s| == |owner| && forall i :: 0 <= i < |s| && owner[i] == k ==> s[i] >= 0.0
    ensures SumWhere(s, owner, k) >= 0.0
    ensures forall i :: 0 <= i < |s| && owner[i] == k ==> s[i] <= SumWhere(s, owner, k)
  {
    if s != [] { SumWhereNonNegative(s[..|s| - 1], owner[..|s| - 1], k); }
  }

  lemma {:induction false} SumWhereScale(s: seq<real>, t: seq<real>, owner: seq<nat>, k: nat, c: real)
    requires |s| == |t| == |owner| && forall i :: 0 <= i < |s| && owner[i] == k ==> t[i] == Times(s[i], c)
    ensures SumWhere(t, owner, k) == Times(SumWhere(s, owner, k), c)
  {
    TimesZero(c);
    if s != [] {
      var n := |s| - 1;
      SumWhereScale(s[..n], t[..n], owner[..n], k, c);
      TimesAdds(SumWhere(s[..n], owner[..n], k), s[n], c);
    }
  }

  lemma {:induction false} SumWhereSame(s: seq<real>, t: seq<real>, owner: seq<nat>, k: nat)
    requires |s| == |t| == |owner| && forall i :: 0 <= i < |s| && owner[i] == k ==> t[i] == s[i]
    ensures SumWhere(t, owner, k) == SumWhere(s, owner, k)
  {
    if s != [] { SumWhereSame(s[..|s| - 1], t[..|s| - 1], owner[..|s| - 1], k); }
  }

  // ---------- over a list of positions ----------

  function SumAt(s: seq<real>, at: seq<nat>): real
    requires forall t :: 0 <= t < |at| ==> at[t] < |s|
  {
    if at == [] then 0.0 else SumAt(s, at[..|at| - 1]) + s[at[|at| - 1]]
  }

  lemma SumAtSnoc(s: seq<real>, at: seq<nat>, i: nat)
    requires i < |s| && forall t :: 0 <= t < |at| ==> at[t] < |s|
    ensures SumAt(s, at + [i]) == SumAt(s, at) + s[i]
  {
    assert (at + [i])[..|at|] == at;
  }

  ghost predicate Distinct(at: seq<nat>) {
    forall t, u :: 0 <= t < u < |at| ==> at[t] != at[u]
  }

  /** at lists, without repetition, the positions whose owner is k. */
  ghost predicate Lists(at: seq<nat>, owner: seq<nat>, k: nat) {
    && Distinct(at)
    && (forall t :: 0 <= t < |at| ==> at[t] < |owner| && owner[at[t]] == k)
    && (forall i :: 0 <= i < |owner| && owner[i] == k ==> i in at)
  }

  /** Summing over a list of a group's positions is summing the group. */
  lemma SumAtIsSumWhere(s: seq<real>, at: seq<nat>, owner: seq<nat>, k: nat)
    requires |s| == |owner| && Lists(at, owner, k)
    ensures SumAt(s, at) == SumWhere(s, owner, k)
  {
    var masked := Masked(s, at);
    SumAtMasked(s, at, masked);
    SumWhereMasked(s, owner, k, masked);
  }

  function Masked(s: seq<real>, at: seq<nat>): (m: seq<real>)
    ensures |m| == |s| && forall i :: 0 <= i < |s| ==> m[i] == if i in at then s[i] else 0.0
  {
    seq(|s|, i requires 0 <= i < |s| => if i in at then s[i] else 0.0)
  }

  lemma {:induction false} SumAtMasked(s: seq<real>, at: seq<nat>, masked: seq<real>)
    requires Distinct(at) && |masked| == |s|
    requires forall t :: 0 <= t < |at| ==> at[t] < |s|
    requires forall i :: 0 <= i < |s| ==> masked[i] == if i in at then s[i] else 0.0
    ensures SumAt(s, at) == Sum(masked)
  {
    if at == [] {
      ZeroSum(masked);
    } else {
      var n := |at| - 1;
      var rest := masked[at[n] := 0.0];
      assert at == at[..n] + [at[n]];
      assert at[n] !in at[..n];
      SumAtMasked(s, at[..n], rest);
      SumUpdate(masked, at[n], 0.0);
    }
  }

  lemma {:induction false} SumWhereMasked(s: seq<real>, owner: seq<nat>, k: nat, masked: seq<real>)
    requires |s| == |owner| == |masked|
    requires forall i :: 0 <= i < |s| ==> masked[i] == if owner[i] == k then s[i] else 0.0
    ensures SumWhere(s, owner, k) == Sum(masked)
  {
    if s != [] { SumWhereMasked(s[..|s| - 1], owner[..|s| - 1], k, masked[..|s| - 1]); }
  }
}
