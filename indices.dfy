/** Minibatches of observation indices, as drawn by
    `np.random.choice(np.arange(N), m, replace = False)`, and sums over them. */
module Indices {
  import opened Vectors

  predicate Distinct(s: seq<nat>)
  {
    forall p, q :: 0 <= p < q < |s| ==> s[p] != s[q]
  }

  predicate InRange(s: seq<nat>, n: nat)
  {
    forall k :: 0 <= k < |s| ==> s[k] < n
  }

  /** m distinct indices in [0, n): what a draw without replacement returns. */
  predicate IsMinibatch(s: seq<nat>, n: nat, m: nat)
  {
    |s| == m && Distinct(s) && InRange(s, n)
  }

  /** `np.arange(n)` (and `xrange(n)`) */
  function Range(n: nat): (r: seq<nat>)
    ensures |r| == n && forall i :: 0 <= i < n ==> r[i] == i
  {
    seq(n, i => i)
  }

  /** Fancy indexing `rows[idx, :]`: the rows named by idx, in idx's order. */
  function Gather(rows: seq<Vec>, idx: seq<nat>): (r: seq<Vec>)
    requires InRange(idx, |rows|)
    ensures |r| == |idx| && forall k :: 0 <= k < |idx| ==> r[k] == rows[idx[k]]
  {
    seq(|idx|, k requires 0 <= k < |idx| => rows[idx[k]])
  }

  function Elems(s: seq<nat>): set<nat>
  {
    set x | x in s
  }

  function RangeSet(n: nat): set<nat>
  {
    Elems(Range(n))
  }

  lemma {:induction false} DistinctCard(s: seq<nat>)
    requires Distinct(s)
    ensures |Elems(s)| == |s|
    decreases |s|
  {
    if |s| > 0 {
      var t := s[..|s| - 1];
      DistinctCard(t);
      assert Elems(s) == Elems(t) + {s[|s| - 1]};
      assert s[|s| - 1] !in Elems(t);
    }
  }

  lemma RangeCard(n: nat)
    ensures |RangeSet(n)| == n
    ensures forall i :: 0 <= i < n ==> i in RangeSet(n)
  {
    DistinctCard(Range(n));
    forall i | 0 <= i < n
      ensures i in RangeSet(n)
    {
      assert Range(n)[i] == i;
    }
  }

  /** A subset is no larger, and a subset of the same size is the whole set. */
  lemma SubsetCard(a: set<nat>, b: set<nat>)
    requires a <= b
    ensures |a| <= |b|
    ensures |a| == |b| ==> b - a == {}
  {
    assert a !! (b - a);
    assert b == a + (b - a);
  }

  /** A draw of m distinct indices from [0, n) exists only when m <= n; asking
      for more (`minibatch_size > N`) is the error `np.random.choice` raises. */
  lemma MinibatchBound(s: seq<nat>, n: nat, m: nat)
    requires IsMinibatch(s, n, m)
    ensures m <= n
  {
    DistinctCard(s);
    RangeCard(n);
    SubsetCard(Elems(s), RangeSet(n));
  }

  /** n distinct indices from [0, n) name every index. */
  lemma CoversRange(s: seq<nat>, n: nat)
    requires IsMinibatch(s, n, n)
    ensures forall i :: 0 <= i < n ==> i in s
  {
    DistinctCard(s);
    RangeCard(n);
    var a, b := Elems(s), RangeSet(n);
    SubsetCard(a, b);
    forall i | 0 <= i < n
      ensures i in s
    {
      assert i in b;
      assert i !in b - a;
    }
  }

  /** Where n - 1 sits in a permutation of [0, n). */
  lemma PositionOfLast(idx: seq<nat>, n: nat) returns (p: nat)
    requires IsMinibatch(idx, n, n) && n > 0
    ensures p < n && idx[p] == n - 1
  {
    CoversRange(idx, n);
    assert n - 1 in idx;
    p :| 0 <= p < n && idx[p] == n - 1;
  }

  /** Dropping position p from a permutation of [0, n) that holds n - 1 there
      leaves a permutation of [0, n - 1). */
  lemma DropLast(idx: seq<nat>, n: nat, p: nat)
    requires IsMinibatch(idx, n, n) && p < n && idx[p] == n - 1
    ensures IsMinibatch(idx[..p] + idx[p + 1..], n - 1, n - 1)
  {
    var rest := idx[..p] + idx[p + 1..];
    forall a, b | 0 <= a < b < |rest|
      ensures rest[a] != rest[b]
    {
      var a' := if a < p then a else a + 1;
      var b' := if b < p then b else b + 1;
      assert rest[a] == idx[a'] && rest[b] == idx[b'];
    }
    forall k | 0 <= k < |rest|
      ensures rest[k] < n - 1
    {
      var k' := if k < p then k else k + 1;
      assert rest[k] == idx[k'] && k' != p;
    }
  }

  /** Gathering around position p: the row at p plus the rows before and after it. */
  lemma GatherSplit(rows: seq<Vec>, d: nat, idx: seq<nat>, p: nat, j: nat)
    requires Rect(rows, d) && j < d && InRange(idx, |rows|) && p < |idx|
    ensures Rect(Gather(rows, idx), d)
    ensures SumCol(Gather(rows, idx), d, j)
         == SumCol(Gather(rows, idx[..p] + idx[p + 1..]), d, j) + rows[idx[p]][j]
  {
    var A, B := Gather(rows, idx[..p]), Gather(rows, idx[p + 1..]);
    var x := rows[idx[p]];
    assert Gather(rows, idx) == A + [x] + B;
    assert Gather(rows, idx[..p] + idx[p + 1..]) == A + B;
    SumColConcat(A + [x], B, d, j);
    SumColSnoc(A, x, d, j);
    SumColConcat(A, B, d, j);
  }

  /** Summing the rows of a full-size minibatch (a permutation of [0, n)) gives
      the sum of all n rows. */
  lemma {:induction false} SumColGatherPermutation(rows: seq<Vec>, d: nat, idx: seq<nat>, j: nat)
    requires Rect(rows, d) && j < d && IsMinibatch(idx, |rows|, |rows|)
    ensures Rect(Gather(rows, idx), d)
    ensures SumCol(Gather(rows, idx), d, j) == SumCol(rows, d, j)
    decreases |rows|
  {
    var n := |rows|;
    if n == 0 {
      assert Gather(rows, idx) == [];
    } else {
      var p := PositionOfLast(idx, n);
      var rest := idx[..p] + idx[p + 1..];
      var init := rows[..n - 1];
      DropLast(idx, n, p);
      SumColGatherPermutation(init, d, rest, j);
      GatherSplit(rows, d, idx, p, j);
      assert Gather(init, rest) == Gather(rows, rest);
    }
  }
}
