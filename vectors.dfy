/** Real vectors and row-major matrices: the numpy arithmetic the samplers use,
    with every float modelled as a `real`. */
module Vectors {

  /** A numpy float vector of length d. */
  type Vec = seq<real>

  /** `np.zeros(d)` */
  function Zeros(d: nat): (r: Vec)
    ensures |r| == d && forall j :: 0 <= j < d ==> r[j] == 0.0
  {
    seq(d, _ => 0.0)
  }

  predicate IsZero(v: Vec)
  {
    forall j :: 0 <= j < |v| ==> v[j] == 0.0
  }

  /** Elementwise `u + v` */
  function Add(u: Vec, v: Vec): (r: Vec)
    requires |u| == |v|
    ensures |r| == |u| && forall j :: 0 <= j < |r| ==> r[j] == u[j] + v[j]
  {
    seq(|u|, j requires 0 <= j < |u| => u[j] + v[j])
  }

  /** Elementwise `u - v` */
  function Sub(u: Vec, v: Vec): (r: Vec)
    requires |u| == |v|
    ensures |r| == |u| && forall j :: 0 <= j < |r| ==> r[j] == u[j] - v[j]
  {
    seq(|u|, j requires 0 <= j < |u| => u[j] - v[j])
  }

  /** Scalar times vector, `c * v` */
  function Scale(c: real, v: Vec): (r: Vec)
    ensures |r| == |v| && forall j :: 0 <= j < |r| ==> r[j] == c * v[j]
  {
    seq(|v|, j requires 0 <= j < |v| => c * v[j])
  }

  /** Unary minus, `-v` */
  function Neg(v: Vec): (r: Vec)
    ensures |r| == |v| && forall j :: 0 <= j < |r| ==> r[j] == -v[j]
  {
    seq(|v|, j requires 0 <= j < |v| => -v[j])
  }

  /** `np.sign` on one entry: the sign of zero is zero. */
  function Sign(x: real): real
  {
    if x > 0.0 then 1.0 else if x < 0.0 then -1.0 else 0.0
  }

  /** `np.sign` on a vector: the gradient of the log of a Laplace(scale 1) prior, negated. */
  function SignVec(v: Vec): (r: Vec)
    ensures |r| == |v| && forall j :: 0 <= j < |r| ==> r[j] == Sign(v[j])
  {
    seq(|v|, j requires 0 <= j < |v| => Sign(v[j]))
  }

  /** `np.dot(u, v)`, summed left to right. */
  function Dot(u: Vec, v: Vec): real
    requires |u| == |v|
    decreases |u|
  {
    if |u| == 0 then 0.0 else Dot(u[..|u| - 1], v[..|v| - 1]) + u[|u| - 1] * v[|v| - 1]
  }

  /** Every row has length d: an n x d numpy array. */
  predicate Rect(rows: seq<Vec>, d: nat)
  {
    forall i :: 0 <= i < |rows| ==> |rows[i]| == d
  }

  /** Sum of column j, `rows[:, j].sum()`. */
  function SumCol(rows: seq<Vec>, d: nat, j: nat): real
    requires Rect(rows, d) && j < d
    decreases |rows|
  {
    if |rows| == 0 then 0.0 else SumCol(rows[..|rows| - 1], d, j) + rows[|rows| - 1][j]
  }

  /** `rows.sum(axis = 0)` */
  function ColumnSums(rows: seq<Vec>, d: nat): (r: Vec)
    requires Rect(rows, d)
    ensures |r| == d && forall j :: 0 <= j < d ==> r[j] == SumCol(rows, d, j)
  {
    seq(d, j requires 0 <= j < d => SumCol(rows, d, j))
  }

  /** `np.matmul(P, v)` for a matrix P with |v| columns. */
  function MatVec(P: seq<Vec>, v: Vec): (r: Vec)
    requires Rect(P, |v|)
    ensures |r| == |P| && forall i :: 0 <= i < |r| ==> r[i] == Dot(P[i], v)
  {
    seq(|P|, i requires 0 <= i < |P| => Dot(P[i], v))
  }

  /** A dot product with a zero vector is zero. */
  lemma {:induction false} DotZeroRight(u: Vec, v: Vec)
    requires |u| == |v| && IsZero(v)
    ensures Dot(u, v) == 0.0
  {
    if |u| > 0 {
      DotZeroRight(u[..|u| - 1], v[..|v| - 1]);
    }
  }

  lemma {:induction false} DotZeroLeft(u: Vec, v: Vec)
    requires |u| == |v| && IsZero(u)
    ensures Dot(u, v) == 0.0
  {
    if |u| > 0 {
      DotZeroLeft(u[..|u| - 1], v[..|v| - 1]);
    }
  }

  /** Dot is linear in its left argument under scaling. */
  lemma {:induction false} DotScaleLeft(c: real, u: Vec, v: Vec)
    requires |u| == |v|
    ensures Dot(Scale(c, u), v) == c * Dot(u, v)
  {
    if |u| > 0 {
      var n := |u|;
      var w, z := Scale(c, u)[..n - 1], Scale(c, u[..n - 1]);
      assert w == z by {
        forall k | 0 <= k < n - 1 ensures w[k] == z[k] {
          assert Scale(c, u)[k] == c * u[k];
        }
      }
      DotScaleLeft(c, u[..n - 1], v[..n - 1]);
    }
  }

  /** Dot is linear in its right argument under scaling. */
  lemma {:induction false} DotScaleRight(c: real, u: Vec, v: Vec)
    requires |u| == |v|
    ensures Dot(u, Scale(c, v)) == c * Dot(u, v)
  {
    if |u| > 0 {
      var n := |u|;
      var w, z := Scale(c, v)[..n - 1], Scale(c, v[..n - 1]);
      assert w == z by {
        forall k | 0 <= k < n - 1 ensures w[k] == z[k] {
          assert Scale(c, v)[k] == c * v[k];
        }
      }
      DotScaleRight(c, u[..n - 1], v[..n - 1]);
    }
  }

  /** Dot distributes over a sum in its right argument. */
  lemma {:induction false} DotAddRight(a: Vec, u: Vec, v: Vec)
    requires |a| == |u| == |v|
    ensures Dot(a, Add(u, v)) == Dot(a, u) + Dot(a, v)
  {
    if |a| > 0 {
      var n := |a|;
      assert Add(u, v)[..n - 1] == Add(u[..n - 1], v[..n - 1]);
      DotAddRight(a[..n - 1], u[..n - 1], v[..n - 1]);
    }
  }

  /** Appending one row adds that row's entry to the column sum. */
  lemma SumColSnoc(rows: seq<Vec>, v: Vec, d: nat, j: nat)
    requires Rect(rows, d) && |v| == d && j < d
    ensures Rect(rows + [v], d)
    ensures SumCol(rows + [v], d, j) == SumCol(rows, d, j) + v[j]
  {
    assert (rows + [v])[..|rows|] == rows;
  }

  lemma ColumnSumsSnoc(rows: seq<Vec>, v: Vec, d: nat)
    requires Rect(rows, d) && |v| == d
    ensures Rect(rows + [v], d)
    ensures ColumnSums(rows + [v], d) == Add(ColumnSums(rows, d), v)
  {
    forall j | 0 <= j < d
      ensures ColumnSums(rows + [v], d)[j] == Add(ColumnSums(rows, d), v)[j]
    {
      SumColSnoc(rows, v, d, j);
    }
  }

  /** Column sums split over a concatenation of row blocks. */
  lemma {:induction false} SumColConcat(u: seq<Vec>, v: seq<Vec>, d: nat, j: nat)
    requires Rect(u, d) && Rect(v, d) && j < d
    ensures Rect(u + v, d)
    ensures SumCol(u + v, d, j) == SumCol(u, d, j) + SumCol(v, d, j)
    decreases |v|
  {
    if |v| > 0 {
      var w := v[..|v| - 1];
      assert u + v == (u + w) + [v[|v| - 1]];
      SumColConcat(u, w, d, j);
      SumColSnoc(u + w, v[|v| - 1], d, j);
    } else {
      assert u + v == u;
    }
  }

  /** Overwriting row i changes the column sum by the difference of the two rows. */
  lemma {:induction false} SumColUpdate(rows: seq<Vec>, d: nat, i: nat, v: Vec, j: nat)
    requires Rect(rows, d) && i < |rows| && |v| == d && j < d
    ensures Rect(rows[i := v], d)
    ensures SumCol(rows[i := v], d, j) == SumCol(rows, d, j) - rows[i][j] + v[j]
    decreases |rows|
  {
    var n := |rows|;
    if i < n - 1 {
      assert rows[i := v][..n - 1] == rows[..n - 1][i := v];
      SumColUpdate(rows[..n - 1], d, i, v, j);
    } else {
      assert rows[i := v][..n - 1] == rows[..n - 1];
    }
  }

  /** A column whose entries are all c sums to n * c. */
  lemma {:induction false} SumColConst(rows: seq<Vec>, d: nat, j: nat, c: real)
    requires Rect(rows, d) && j < d
    requires forall i :: 0 <= i < |rows| ==> rows[i][j] == c
    ensures SumCol(rows, d, j) == (|rows| as real) * c
    decreases |rows|
  {
    if |rows| > 0 {
      SumColConst(rows[..|rows| - 1], d, j, c);
    }
  }

  /** Summing zero rows gives the zero vector. */
  lemma ColumnSumsOfZeros(rows: seq<Vec>, d: nat)
    requires Rect(rows, d)
    requires forall i :: 0 <= i < |rows| ==> IsZero(rows[i])
    ensures IsZero(ColumnSums(rows, d))
  {
    forall j | 0 <= j < d
      ensures SumCol(rows, d, j) == 0.0
    {
      SumColConst(rows, d, j, 0.0);
    }
  }

  /** The dot products of a with each row sum to a dotted with the column sums. */
  lemma {:induction false} SumOfDots(a: Vec, rows: seq<Vec>, d: nat)
    requires |a| == d && Rect(rows, d)
    ensures SumDots(a, rows) == Dot(a, ColumnSums(rows, d))
    decreases |rows|
  {
    if |rows| == 0 {
      DotZeroRight(a, ColumnSums(rows, d));
    } else {
      var init := rows[..|rows| - 1];
      var last := rows[|rows| - 1];
      SumOfDots(a, init, d);
      assert init + [last] == rows;
      ColumnSumsSnoc(init, last, d);
      DotAddRight(a, ColumnSums(init, d), last);
    }
  }

  /** Sum over the rows of `np.dot(a, rows[i])`. */
  function SumDots(a: Vec, rows: seq<Vec>): real
    requires Rect(rows, |a|)
    decreases |rows|
  {
    if |rows| == 0 then 0.0 else SumDots(a, rows[..|rows| - 1]) + Dot(a, rows[|rows| - 1])
  }
}
