/** Zero-variance control-variate postprocessing of an SGLD chain
    (`ZVSGLD.control_variates`): the potential energy is -1/2 times the stored
    log-posterior gradients, and chain column j is corrected by a_j . PE[i, :],
    where a_j = -P cov_j and P is the (shrinkage) precision of PE. */
module ZeroVariance {
  import opened Vectors

  /** `pot_energy = -1 / 2.0 * grad_sample` */
  function PotEnergy(gradSample: seq<Vec>): (pe: seq<Vec>)
    ensures |pe| == |gradSample|
    ensures forall i :: 0 <= i < |pe| ==> pe[i] == Scale(-0.5, gradSample[i])
  {
    seq(|gradSample|, i requires 0 <= i < |gradSample| => Scale(-0.5, gradSample[i]))
  }

  /** `np.mean(rows, axis = 0)` */
  function ColumnMeans(rows: seq<Vec>, d: nat): (r: Vec)
    requires Rect(rows, d) && |rows| > 0
    ensures |r| == d && forall j :: 0 <= j < d ==> r[j] == 1.0 / (|rows| as real) * SumCol(rows, d, j)
  {
    Scale(1.0 / (|rows| as real), ColumnSums(rows, d))
  }

  /** The n terms the covariance loop for dimension j adds up:
      `1 / float(n - 1) * (sample[i, j] - sample_mean[j]) * (pot_energy[i, :] - grad_mean)`. */
  function CovTerms(sample: seq<Vec>, pe: seq<Vec>, d: nat, j: nat): (r: seq<Vec>)
    requires |sample| == |pe| && |sample| >= 2 && Rect(sample, d) && Rect(pe, d) && j < d
    ensures |r| == |sample| && Rect(r, d)
  {
    var n := |sample|;
    var sm, gm := ColumnMeans(sample, d), ColumnMeans(pe, d);
    seq(n, i requires 0 <= i < n => CovTerm(n, sample[i][j] - sm[j], Sub(pe[i], gm)))
  }

  /** One covariance term: `1 / float(n - 1) * dev * centred`. */
  function CovTerm(n: nat, dev: real, centred: Vec): (r: Vec)
    requires n >= 2
    ensures |r| == |centred|
    ensures dev == 0.0 ==> IsZero(r)
  {
    Scale(1.0 / ((n - 1) as real) * dev, centred)
  }

  /** `cov_params` for dimension j: the sample cross-covariance, with divisor
      n - 1, of chain column j with every column of PE. */
  function CovParams(sample: seq<Vec>, pe: seq<Vec>, d: nat, j: nat): (r: Vec)
    requires |sample| == |pe| && |sample| >= 2 && Rect(sample, d) && Rect(pe, d) && j < d
    ensures |r| == d
  {
    ColumnSums(CovTerms(sample, pe, d, j), d)
  }

  /** `a_current = -np.matmul(var_grad_inv, cov_params)` */
  function Coefficients(P: seq<Vec>, cov: Vec): (a: Vec)
    requires Rect(P, |cov|)
    ensures |a| == |P| && forall k :: 0 <= k < |P| ==> a[k] == -Dot(P[k], cov)
  {
    Neg(MatVec(P, cov))
  }

  /** The mean of n copies of one row is that row. */
  lemma ColumnMeansOfCopies(rows: seq<Vec>, d: nat, v: Vec)
    requires |rows| > 0 && |v| == d && forall i :: 0 <= i < |rows| ==> rows[i] == v
    ensures Rect(rows, d) && ColumnMeans(rows, d) == v
  {
    var n := |rows| as real;
    forall j | 0 <= j < d
      ensures ColumnMeans(rows, d)[j] == v[j]
    {
      SumColConst(rows, d, j, v[j]);
      assert 1.0 / n * (n * v[j]) == v[j];
    }
  }

  /** A zero covariance vector gives zero coefficients, whatever the precision. */
  lemma CoefficientsOfZeroCovariance(P: seq<Vec>, cov: Vec)
    requires Rect(P, |cov|) && IsZero(cov)
    ensures |Coefficients(P, cov)| == |P| && IsZero(Coefficients(P, cov))
  {
    forall k | 0 <= k < |P|
      ensures Dot(P[k], cov) == 0.0
    {
      DotZeroRight(P[k], cov);
    }
  }

  /** The coefficient vector a_j for chain column j. */
  function ColumnCoefficients(sample: seq<Vec>, pe: seq<Vec>, P: seq<Vec>, d: nat, j: nat): (a: Vec)
    requires |sample| == |pe| && |sample| >= 2 && Rect(sample, d) && Rect(pe, d) && j < d
    requires |P| == d && Rect(P, d)
    ensures |a| == d
  {
    Coefficients(P, CovParams(sample, pe, d, j))
  }

  /** `new_sample`: entry (i, j) is `sample[i, j] + np.dot(a_j, pot_energy[i, :])`. */
  function ZvSample(sample: seq<Vec>, gradSample: seq<Vec>, P: seq<Vec>, d: nat): (r: seq<Vec>)
    requires |sample| == |gradSample| && |sample| >= 2 && Rect(sample, d) && Rect(gradSample, d)
    requires |P| == d && Rect(P, d)
    ensures |r| == |sample| && Rect(r, d)
  {
    var pe := PotEnergy(gradSample);
    seq(|sample|, i requires 0 <= i < |sample| =>
      seq(d, j requires 0 <= j < d =>
        sample[i][j] + Dot(ColumnCoefficients(sample, pe, P, d, j), pe[i])))
  }

  /** The nested loops of `control_variates` that build `new_sample`, column by
      column: accumulate `cov_params`, form `a_current`, then write column j.
      The precision matrix P is an input. */
  method ZvNewSample(sample: seq<Vec>, gradSample: seq<Vec>, P: seq<Vec>, d: nat) returns (newSample: seq<Vec>)
    requires |sample| == |gradSample| && |sample| >= 2 && Rect(sample, d) && Rect(gradSample, d)
    requires |P| == d && Rect(P, d)
    ensures |newSample| == |sample| && Rect(newSample, d)
    ensures forall i, j :: 0 <= i < |sample| && 0 <= j < d ==>
      newSample[i][j] == sample[i][j] + Dot(Coefficients(P, CovParams(sample, PotEnergy(gradSample), d, j)),
                                             PotEnergy(gradSample)[i])
    ensures newSample == ZvSample(sample, gradSample, P, d)
  {
    var n := |sample|;
    var potEnergy := PotEnergy(gradSample);
    var sampleMean := ColumnMeans(sample, d);
    var gradMean := ColumnMeans(potEnergy, d);
    ghost var target := ZvSample(sample, gradSample, P, d);
    var out := new Vec[n](_ => Zeros(d));
    for j := 0 to d
      invariant forall i :: 0 <= i < n ==> |out[i]| == d
      invariant forall i, jj :: 0 <= i < n && 0 <= jj < d ==>
        out[i][jj] == if jj < j then target[i][jj] else 0.0
    {
      var covParams := AccumulateCov(sample, potEnergy, sampleMean, gradMean, d, j);
      var aCurrent := Neg(MatVec(P, covParams));
      assert aCurrent == ColumnCoefficients(sample, potEnergy, P, d, j);
      WriteColumn(out, sample, potEnergy, aCurrent, d, j);
    }
    newSample := out[..];
    assert newSample == target by {
      forall i | 0 <= i < n
        ensures newSample[i] == target[i]
      {
      }
    }
  }

  /** The inner loop accumulating `cov_params` for chain column j. */
  method AccumulateCov(sample: seq<Vec>, pe: seq<Vec>, sampleMean: Vec, gradMean: Vec, d: nat, j: nat)
    returns (covParams: Vec)
    requires |sample| == |pe| && |sample| >= 2 && Rect(sample, d) && Rect(pe, d) && j < d
    requires sampleMean == ColumnMeans(sample, d) && gradMean == ColumnMeans(pe, d)
    ensures covParams == CovParams(sample, pe, d, j)
  {
    var n := |sample|;
    ghost var terms := CovTerms(sample, pe, d, j);
    covParams := Zeros(d);
    for i := 0 to n
      invariant covParams == ColumnSums(terms[..i], d)
    {
      assert terms[..i + 1] == terms[..i] + [terms[i]];
      ColumnSumsSnoc(terms[..i], terms[i], d);
      covParams := Add(covParams, CovTerm(n, sample[i][j] - sampleMean[j], Sub(pe[i], gradMean)));
    }
    assert terms[..n] == terms;
  }

  /** The inner loop writing column j: `new_sample[i, j] = sample[i, j] + a . pe[i]`. */
  method WriteColumn(out: array<Vec>, sample: seq<Vec>, pe: seq<Vec>, a: Vec, d: nat, j: nat)
    requires out.Length == |sample| == |pe| && Rect(sample, d) && Rect(pe, d) && |a| == d && j < d
    requires forall r :: 0 <= r < out.Length ==> |out[r]| == d
    modifies out
    ensures forall r :: 0 <= r < out.Length ==> out[r] == old(out[r])[j := sample[r][j] + Dot(a, pe[r])]
  {
    for i := 0 to out.Length
      invariant forall r :: 0 <= r < out.Length ==>
        out[r] == if r < i then old(out[r])[j := sample[r][j] + Dot(a, pe[r])] else old(out[r])
    {
      out[i] := out[i][j := sample[i][j] + Dot(a, pe[i])];
    }
  }

  /** Zero stored gradients give a zero potential energy, so the chain comes back
      unchanged. */
  lemma ZeroGradientsKeepChain(sample: seq<Vec>, gradSample: seq<Vec>, P: seq<Vec>, d: nat)
    requires |sample| == |gradSample| && |sample| >= 2 && Rect(sample, d) && Rect(gradSample, d)
    requires |P| == d && Rect(P, d)
    requires forall i :: 0 <= i < |gradSample| ==> IsZero(gradSample[i])
    ensures ZvSample(sample, gradSample, P, d) == sample
  {
    var pe := PotEnergy(gradSample);
    var z := ZvSample(sample, gradSample, P, d);
    forall i | 0 <= i < |sample|
      ensures z[i] == sample[i]
    {
      forall j | 0 <= j < d
        ensures z[i][j] == sample[i][j]
      {
        DotZeroRight(ColumnCoefficients(sample, pe, P, d, j), pe[i]);
      }
    }
  }

  /** A chain column that is constant has zero covariance with PE, so its
      coefficients are zero and the column is left as it was. */
  lemma ConstantColumnKept(sample: seq<Vec>, gradSample: seq<Vec>, P: seq<Vec>, d: nat, j: nat, c: real)
    requires |sample| == |gradSample| && |sample| >= 2 && Rect(sample, d) && Rect(gradSample, d)
    requires |P| == d && Rect(P, d) && j < d
    requires forall i :: 0 <= i < |sample| ==> sample[i][j] == c
    ensures forall i :: 0 <= i < |sample| ==> ZvSample(sample, gradSample, P, d)[i][j] == sample[i][j]
  {
    var n := |sample|;
    var pe := PotEnergy(gradSample);
    SumColConst(sample, d, j, c);
    assert ColumnMeans(sample, d)[j] == c;
    var terms := CovTerms(sample, pe, d, j);
    forall i | 0 <= i < n
      ensures IsZero(terms[i])
    {
    }
    ColumnSumsOfZeros(terms, d);
    CoefficientsOfZeroCovariance(P, CovParams(sample, pe, d, j));
    var a := ColumnCoefficients(sample, pe, P, d, j);
    forall i | 0 <= i < n
      ensures ZvSample(sample, gradSample, P, d)[i][j] == sample[i][j]
    {
      DotZeroLeft(a, pe[i]);
    }
  }

  /** Summing a column whose entries are shifted by a . e_i shifts the column
      sum by the sum of those dot products. */
  lemma {:induction false} SumColShift(z: seq<Vec>, s: seq<Vec>, e: seq<Vec>, a: Vec, d: nat, j: nat)
    requires |z| == |s| == |e| && Rect(z, d) && Rect(s, d) && Rect(e, d) && |a| == d && j < d
    requires forall i :: 0 <= i < |z| ==> z[i][j] == s[i][j] + Dot(a, e[i])
    ensures SumCol(z, d, j) == SumCol(s, d, j) + SumDots(a, e)
    decreases |z|
  {
    if |z| > 0 {
      var n := |z|;
      SumColShift(z[..n - 1], s[..n - 1], e[..n - 1], a, d, j);
    }
  }

  /** The corrected column sums to the old column sum plus a_j . (sum of PE). */
  lemma ZvColumnSum(sample: seq<Vec>, gradSample: seq<Vec>, P: seq<Vec>, d: nat, j: nat)
    requires |sample| == |gradSample| && |sample| >= 2 && Rect(sample, d) && Rect(gradSample, d)
    requires |P| == d && Rect(P, d) && j < d
    ensures SumCol(ZvSample(sample, gradSample, P, d), d, j)
         == SumCol(sample, d, j)
          + Dot(ColumnCoefficients(sample, PotEnergy(gradSample), P, d, j), ColumnSums(PotEnergy(gradSample), d))
  {
    var pe := PotEnergy(gradSample);
    var a := ColumnCoefficients(sample, pe, P, d, j);
    var z := ZvSample(sample, gradSample, P, d);
    assert forall i :: 0 <= i < |sample| ==> z[i][j] == sample[i][j] + Dot(a, pe[i]);
    SumColShift(z, sample, pe, a, d, j);
    SumOfDots(a, pe, d);
  }

  /** The corrected column mean is the old mean plus a_j . mean(PE): the
      estimate moves only by the control variate's sample mean, which is what
      makes it unbiased when PE has mean zero. */
  lemma ZvMeanShift(sample: seq<Vec>, gradSample: seq<Vec>, P: seq<Vec>, d: nat, j: nat)
    requires |sample| == |gradSample| && |sample| >= 2 && Rect(sample, d) && Rect(gradSample, d)
    requires |P| == d && Rect(P, d) && j < d
    ensures ColumnMeans(ZvSample(sample, gradSample, P, d), d)[j]
         == ColumnMeans(sample, d)[j]
          + Dot(ColumnCoefficients(sample, PotEnergy(gradSample), P, d, j), ColumnMeans(PotEnergy(gradSample), d))
  {
    var pe := PotEnergy(gradSample);
    var a := ColumnCoefficients(sample, pe, P, d, j);
    var z := ZvSample(sample, gradSample, P, d);
    ZvColumnSum(sample, gradSample, P, d, j);
    DotColumnMeans(a, pe, d, |z|);
    MeanOfShiftedColumn(z, sample, d, j, Dot(a, ColumnSums(pe, d)), Dot(a, ColumnMeans(pe, d)));
  }

  /** Column means follow column sums: shifting a column's sum by t shifts
      its mean by u = t / n. */
  lemma MeanOfShiftedColumn(z: seq<Vec>, s: seq<Vec>, d: nat, j: nat, t: real, u: real)
    requires |z| == |s| > 0 && Rect(z, d) && Rect(s, d) && j < d
    requires ColumnSums(z, d)[j] == ColumnSums(s, d)[j] + t
    requires u == 1.0 / (|z| as real) * t
    ensures ColumnMeans(z, d)[j] == ColumnMeans(s, d)[j] + u
  {
    var inv := 1.0 / (|z| as real);
    var cz, cs := ColumnSums(z, d), ColumnSums(s, d);
    assert ColumnMeans(z, d) == Scale(inv, cz);
    assert ColumnMeans(s, d) == Scale(inv, cs);
    MeanOfShift(ColumnMeans(z, d)[j], cz[j], ColumnMeans(s, d)[j], cs[j], u, t, inv);
  }

  /** a . mean(e) is a . (column sums of e) over n, the row count of e. */
  lemma DotColumnMeans(a: Vec, e: seq<Vec>, d: nat, n: nat)
    requires |e| == n > 0 && Rect(e, d) && |a| == d
    ensures Dot(a, ColumnMeans(e, d)) == 1.0 / (n as real) * Dot(a, ColumnSums(e, d))
  {
    var cs := ColumnSums(e, d);
    assert ColumnMeans(e, d) == Scale(1.0 / (n as real), cs);
    DotScaleRight(1.0 / (n as real), a, cs);
  }

  /** Scaling a shifted sum by 1 / n shifts the mean by the shift over n. */
  lemma MeanOfShift(mz: real, sz: real, ms: real, ss: real, mt: real, t: real, inv: real)
    requires mz == inv * sz && ms == inv * ss && mt == inv * t && sz == ss + t
    ensures mz == ms + mt
  {
  }
}
