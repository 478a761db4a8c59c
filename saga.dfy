/** The SAGA variance-reduced SGLD sampler (saga.py) together with the
    LogisticRegression class that drives it (the sagaSimulations
    logistic_regression.py). The two call each other, so they share a module. */
module SagaSampler {
  import opened Vectors
  import opened Indices
  import opened Logistic

  datatype Option<T> = None | Some(value: T)

  /** How many rows `dlogdens` allocates: `len(indices)`, where a falsy
      `indices` (None, or an empty range) is replaced by the current minibatch. */
  function SampleSize(indices: Option<seq<nat>>, minibatch: seq<nat>): nat
  {
    if indices.None? || indices.value == [] then |minibatch| else |indices.value|
  }

  /** What `dlogdens` returns: size rows, where row k < |minibatch| is the
      gradient of observation minibatch[k] and every later row is zero. */
  function DensRows(data: Data, beta: Vec, minibatch: seq<nat>, size: nat): (r: seq<Vec>)
    requires WellFormed(data, |beta|) && InRange(minibatch, |data.X|)
    ensures |r| == size && Rect(r, |beta|)
  {
    seq(size, k requires 0 <= k < size =>
      if k < |minibatch| then ObsGrad(data, beta, minibatch[k]) else Zeros(|beta|))
  }

  /** Row i of t after rows[0], ..., rows[|idx| - 1] are written to rows
      idx[0], ..., idx[|idx| - 1] in turn: the last write to i wins. */
  function Written(t: seq<Vec>, idx: seq<nat>, rows: seq<Vec>, d: nat, i: nat): (r: Vec)
    requires |idx| == |rows| && Rect(t, d) && Rect(rows, d) && i < |t|
    ensures |r| == d
    decreases |idx|
  {
    if |idx| == 0 then t[i]
    else if idx[|idx| - 1] == i then rows[|rows| - 1]
    else Written(t, idx[..|idx| - 1], rows[..|rows| - 1], d, i)
  }

  /** Row-wise fancy assignment `t[idx, :] = rows`. */
  function Scatter(t: seq<Vec>, idx: seq<nat>, rows: seq<Vec>, d: nat): (r: seq<Vec>)
    requires |idx| == |rows| && InRange(idx, |t|) && Rect(t, d) && Rect(rows, d)
    ensures |r| == |t| && Rect(r, d)
  {
    seq(|t|, i requires 0 <= i < |t| => Written(t, idx, rows, d, i))
  }

  /** Writing all the rows is writing all but the last, then the last. */
  lemma ScatterSnoc(t: seq<Vec>, idx: seq<nat>, rows: seq<Vec>, d: nat)
    requires |idx| == |rows| && InRange(idx, |t|) && Rect(t, d) && Rect(rows, d) && |idx| > 0
    ensures Scatter(t, idx, rows, d)
         == Scatter(t, idx[..|idx| - 1], rows[..|rows| - 1], d)[idx[|idx| - 1] := rows[|rows| - 1]]
  {
  }

  /** Writing the first k + 1 rows is writing the first k, then row k. */
  lemma ScatterPrefix(t: seq<Vec>, idx: seq<nat>, rows: seq<Vec>, d: nat, k: nat)
    requires |idx| == |rows| && InRange(idx, |t|) && Rect(t, d) && Rect(rows, d) && k < |idx|
    ensures Scatter(t, idx[..k + 1], rows[..k + 1], d)
         == Scatter(t, idx[..k], rows[..k], d)[idx[k] := rows[k]]
  {
    assert idx[..k + 1][..k] == idx[..k];
    assert rows[..k + 1][..k] == rows[..k];
    ScatterSnoc(t, idx[..k + 1], rows[..k + 1], d);
  }

  /** With distinct indices, row idx[k] receives rows[k] and every other row is kept. */
  lemma {:induction false} ScatterAt(t: seq<Vec>, idx: seq<nat>, rows: seq<Vec>, d: nat)
    requires |idx| == |rows| && InRange(idx, |t|) && Rect(t, d) && Rect(rows, d) && Distinct(idx)
    ensures forall k :: 0 <= k < |idx| ==> Scatter(t, idx, rows, d)[idx[k]] == rows[k]
    ensures forall i :: 0 <= i < |t| && i !in idx ==> Scatter(t, idx, rows, d)[i] == t[i]
    decreases |idx|
  {
    var n := |idx|;
    if n > 0 {
      var idx', rows' := idx[..n - 1], rows[..n - 1];
      ScatterAt(t, idx', rows', d);
      ScatterSnoc(t, idx, rows, d);
      forall k | 0 <= k < n - 1
        ensures Scatter(t, idx, rows, d)[idx[k]] == rows[k]
      {
        assert idx[k] != idx[n - 1] && idx'[k] == idx[k];
      }
      forall i | 0 <= i < |t| && i !in idx
        ensures Scatter(t, idx, rows, d)[i] == t[i]
      {
        assert i !in idx';
      }
    }
  }

  /** With distinct indices, the column sums move by (new rows) - (old rows). */
  lemma {:induction false} ScatterSumCol(t: seq<Vec>, idx: seq<nat>, rows: seq<Vec>, d: nat, j: nat)
    requires |idx| == |rows| && InRange(idx, |t|) && Rect(t, d) && Rect(rows, d) && Distinct(idx)
    requires j < d
    ensures Rect(Gather(t, idx), d)
    ensures SumCol(Scatter(t, idx, rows, d), d, j)
         == SumCol(t, d, j) - SumCol(Gather(t, idx), d, j) + SumCol(rows, d, j)
    decreases |idx|
  {
    var n := |idx|;
    if n == 0 {
      assert Gather(t, idx) == [];
      assert Scatter(t, idx, rows, d) == t;
    } else {
      var idx', rows' := idx[..n - 1], rows[..n - 1];
      var x, v := idx[n - 1], rows[n - 1];
      var S' := Scatter(t, idx', rows', d);
      var G', G := Gather(t, idx'), Gather(t, idx);
      assert S'[x] == t[x] by {
        assert x !in idx' by {
          forall k | 0 <= k < n - 1 ensures idx'[k] != x {
            assert idx[k] != idx[n - 1];
          }
        }
        ScatterAt(t, idx', rows', d);
      }
      assert SumCol(Scatter(t, idx, rows, d), d, j) == SumCol(S', d, j) - t[x][j] + v[j] by {
        ScatterSnoc(t, idx, rows, d);
        SumColUpdate(S', d, x, v, j);
      }
      assert SumCol(G, d, j) == SumCol(G', d, j) + t[x][j] by {
        assert G == G' + [t[x]];
        SumColSnoc(G', t[x], d, j);
      }
      assert SumCol(rows, d, j) == SumCol(rows', d, j) + v[j] by {
        assert rows == rows' + [v];
        SumColSnoc(rows', v, d, j);
      }
      ScatterSumCol(t, idx', rows', d, j);
    }
  }

  /** The sampler's state: the cached gradient table `g_alpha_i` (N x d), its
      running sum `g_alpha`, and the parameter vector `beta`. */
  datatype SagaState = SagaState(table: seq<Vec>, gAlpha: Vec, beta: Vec)

  predicate Shaped(data: Data, s: SagaState)
  {
    WellFormed(data, |s.beta|) && |s.table| == |data.X| && Rect(s.table, |s.beta|)
    && |s.gAlpha| == |s.beta|
  }

  /** The SAGA invariant: `g_alpha` is the column sum of `g_alpha_i`. */
  predicate Consistent(data: Data, s: SagaState)
  {
    Shaped(data, s) && s.gAlpha == ColumnSums(s.table, |s.beta|)
  }

  /** `dlogpostest`: g_alpha + (N / m) * (S_new - S_old) - sign(beta), with the
      correction N / m a real division. */
  function DLogPostEst(gAlpha: Vec, n: nat, m: nat, sOld: Vec, sNew: Vec, beta: Vec): (r: Vec)
    requires m > 0 && |gAlpha| == |beta| && |sOld| == |beta| && |sNew| == |beta|
    ensures |r| == |beta|
  {
    Sub(Add(gAlpha, Scale((n as real) / (m as real), Sub(sNew, sOld))), SignVec(beta))
  }

  /** The estimate one update forms for minibatch mb, from the state before it. */
  function SagaEstimate(data: Data, s: SagaState, mb: seq<nat>, m: nat): (r: Vec)
    requires Shaped(data, s) && InRange(mb, |data.X|) && m > 0
    ensures |r| == |s.beta|
  {
    DLogPostEst(s.gAlpha, |data.X|, m, ColumnSums(Gather(s.table, mb), |s.beta|),
                LikGradSum(data, s.beta, mb), s.beta)
  }

  /** One `update` on values: fresh gradients for mb, the estimate from the old
      sum, the sum moved by S_new - S_old, the mb rows overwritten, and a
      Langevin step with noise eta. */
  function SagaStep(data: Data, s: SagaState, mb: seq<nat>, m: nat, eps: real, eta: Vec): (r: SagaState)
    requires Shaped(data, s) && InRange(mb, |data.X|) && m > 0 && |eta| == |s.beta|
    ensures Shaped(data, r) && |r.beta| == |s.beta|
  {
    var d := |s.beta|;
    var sOld := ColumnSums(Gather(s.table, mb), d);
    var sNew := LikGradSum(data, s.beta, mb);
    SagaState(Scatter(s.table, mb, Grads(data, s.beta, mb), d),
              Add(s.gAlpha, Sub(sNew, sOld)),
              LangevinStep(s.beta, eps, SagaEstimate(data, s, mb, m), eta))
  }

  /** The state the constructor builds: the table is what
      `dlogdens(self, xrange(N))` returns, and `g_alpha` its column sum. */
  function SagaInit(data: Data, beta: Vec, mb0: seq<nat>): (r: SagaState)
    requires WellFormed(data, |beta|) && InRange(mb0, |data.X|)
    ensures Consistent(data, r) && r.beta == beta
  {
    var t := DensRows(data, beta, mb0, |data.X|);
    SagaState(t, ColumnSums(t, |beta|), beta)
  }

  /** The state after the first k updates, update i drawing mbs[i] and noise etas[i]. */
  function SagaAfter(data: Data, s0: SagaState, mbs: seq<seq<nat>>, m: nat, eps: real,
                     etas: seq<Vec>, k: nat): (r: SagaState)
    requires Shaped(data, s0) && m > 0 && Draws(mbs, |data.X|, m) && Noises(etas, |s0.beta|)
    requires k <= |mbs| && k <= |etas|
    ensures Shaped(data, r) && |r.beta| == |s0.beta|
    decreases k
  {
    if k == 0 then s0
    else SagaStep(data, SagaAfter(data, s0, mbs, m, eps, etas, k - 1), mbs[k - 1], m, eps, etas[k - 1])
  }

  /** The states of one `fit`: draws[0] is the constructor's minibatch and
      draws[k] the one update k samples. */
  function SagaFitState(data: Data, beta0: Vec, draws: seq<seq<nat>>, m: nat, eps: real,
                        etas: seq<Vec>, k: nat): (r: SagaState)
    requires WellFormed(data, |beta0|) && m > 0 && |draws| > 0 && Draws(draws, |data.X|, m)
    requires Noises(etas, |beta0|) && k < |draws| && k <= |etas|
    ensures Shaped(data, r) && |r.beta| == |beta0|
  {
    SagaAfter(data, SagaInit(data, beta0, draws[0]), draws[1..], m, eps, etas, k)
  }

  /** Update k of a `fit` takes the state after k - 1 updates to the state after k. */
  lemma SagaFitStateNext(data: Data, beta0: Vec, draws: seq<seq<nat>>, m: nat, eps: real,
                         etas: seq<Vec>, k: nat)
    requires WellFormed(data, |beta0|) && m > 0 && |draws| > 0 && Draws(draws, |data.X|, m)
    requires Noises(etas, |beta0|) && 0 < k < |draws| && k <= |etas|
    ensures IsMinibatch(draws[k], |data.X|, m) && |etas[k - 1]| == |beta0|
    ensures SagaFitState(data, beta0, draws, m, eps, etas, k)
         == SagaStep(data, SagaFitState(data, beta0, draws, m, eps, etas, k - 1), draws[k], m, eps, etas[k - 1])
  {
    assert draws[1..][k - 1] == draws[k];
  }

  /** The parameter vectors after updates 1, ..., k of one `fit`. */
  function SagaBetas(data: Data, beta0: Vec, draws: seq<seq<nat>>, m: nat, eps: real,
                     etas: seq<Vec>, k: nat): (r: seq<Vec>)
    requires WellFormed(data, |beta0|) && m > 0 && |draws| > 0 && Draws(draws, |data.X|, m)
    requires Noises(etas, |beta0|) && k < |draws| && k <= |etas|
    ensures |r| == k && Rect(r, |beta0|)
  {
    seq(k, i requires 0 <= i < k => SagaFitState(data, beta0, draws, m, eps, etas, i + 1).beta)
  }

  /** The parameter vectors after updates 0, 1, ..., k of one `fit`. */
  function SagaChain(data: Data, beta0: Vec, draws: seq<seq<nat>>, m: nat, eps: real,
                     etas: seq<Vec>, k: nat): (r: seq<Vec>)
    requires WellFormed(data, |beta0|) && m > 0 && |draws| > 0 && Draws(draws, |data.X|, m)
    requires Noises(etas, |beta0|) && k < |draws| && k <= |etas|
    ensures |r| == k + 1 && Rect(r, |beta0|)
  {
    seq(k + 1, i requires 0 <= i <= k => SagaFitState(data, beta0, draws, m, eps, etas, i).beta)
  }

  /** Update k of a `fit` of K updates adds a checkpoint exactly when k is a
      multiple of LossThinning, taken at the state after k - 1 updates. */
  lemma SagaCheckpointsNext(data: Data, beta0: Vec, draws: seq<seq<nat>>, m: nat, eps: real,
                            etas: seq<Vec>, XTest: seq<Vec>, K: nat, k: nat)
    requires WellFormed(data, |beta0|) && m > 0 && |draws| > 0 && Draws(draws, |data.X|, m)
    requires Noises(etas, |beta0|) && K < |draws| && K <= |etas| && Rect(XTest, |beta0|) && 1 <= k <= K
    ensures Checkpoints(SagaChain(data, beta0, draws, m, eps, etas, K), XTest, |beta0|, k)
         == Checkpoints(SagaChain(data, beta0, draws, m, eps, etas, K), XTest, |beta0|, k - 1)
          + (if k % LossThinning == 0
             then [Predictions(SagaFitState(data, beta0, draws, m, eps, etas, k - 1).beta, XTest)]
             else [])
  {
    CheckpointsNext(SagaChain(data, beta0, draws, m, eps, etas, K), XTest, |beta0|, k);
  }

  /** Every update keeps `g_alpha` equal to the column sum of the table,
      provided the minibatch indices are distinct. */
  lemma SagaStepKeepsSum(data: Data, s: SagaState, mb: seq<nat>, m: nat, eps: real, eta: Vec)
    requires Consistent(data, s) && IsMinibatch(mb, |data.X|, m) && m > 0 && |eta| == |s.beta|
    ensures Consistent(data, SagaStep(data, s, mb, m, eps, eta))
  {
    var d := |s.beta|;
    var r := SagaStep(data, s, mb, m, eps, eta);
    var newRows := Grads(data, s.beta, mb);
    forall j | 0 <= j < d
      ensures r.gAlpha[j] == ColumnSums(r.table, d)[j]
    {
      ScatterSumCol(s.table, mb, newRows, d, j);
    }
  }

  /** An update overwrites exactly the minibatch rows of the table, each with the
      fresh gradient of its observation; all other rows are unchanged. */
  lemma SagaStepRows(data: Data, s: SagaState, mb: seq<nat>, m: nat, eps: real, eta: Vec)
    requires Shaped(data, s) && IsMinibatch(mb, |data.X|, m) && m > 0 && |eta| == |s.beta|
    ensures forall k :: 0 <= k < |mb| ==>
      SagaStep(data, s, mb, m, eps, eta).table[mb[k]] == ObsGrad(data, s.beta, mb[k])
    ensures forall i :: 0 <= i < |data.X| && i !in mb ==>
      SagaStep(data, s, mb, m, eps, eta).table[i] == s.table[i]
  {
    ScatterAt(s.table, mb, Grads(data, s.beta, mb), |s.beta|);
  }

  /** When the cached rows of the minibatch already hold the fresh gradients,
      the sum is unchanged and the estimate is g_alpha - sign(beta). */
  lemma SagaCachedFresh(data: Data, s: SagaState, mb: seq<nat>, m: nat, eps: real, eta: Vec)
    requires Shaped(data, s) && InRange(mb, |data.X|) && m > 0 && |eta| == |s.beta|
    requires Gather(s.table, mb) == Grads(data, s.beta, mb)
    ensures SagaStep(data, s, mb, m, eps, eta).gAlpha == s.gAlpha
    ensures SagaEstimate(data, s, mb, m) == Sub(s.gAlpha, SignVec(s.beta))
  {
    var d := |s.beta|;
    assert ColumnSums(Gather(s.table, mb), d) == LikGradSum(data, s.beta, mb);
  }

  /** With m = N the minibatch is a permutation of all observations, and by the
      sum invariant the estimate is the full-batch log-posterior gradient,
      whatever the table held. */
  lemma SagaFullBatch(data: Data, s: SagaState, mb: seq<nat>)
    requires Consistent(data, s) && |data.X| > 0 && IsMinibatch(mb, |data.X|, |data.X|)
    ensures SagaEstimate(data, s, mb, |data.X|) == Sub(FullGrad(data, s.beta), SignVec(s.beta))
  {
    var d, n := |s.beta|, |data.X|;
    LikGradSumFullBatch(data, s.beta, mb);
    assert (n as real) / (n as real) == 1.0;
    forall j | 0 <= j < d
      ensures ColumnSums(Gather(s.table, mb), d)[j] == s.gAlpha[j]
    {
      SumColGatherPermutation(s.table, d, mb, j);
    }
  }

  /** The invariant holds after any number of updates. */
  lemma {:induction false} SagaAfterConsistent(data: Data, s0: SagaState, mbs: seq<seq<nat>>, m: nat,
                                               eps: real, etas: seq<Vec>, k: nat)
    requires Consistent(data, s0) && m > 0 && Draws(mbs, |data.X|, m) && Noises(etas, |s0.beta|)
    requires k <= |mbs| && k <= |etas|
    ensures Consistent(data, SagaAfter(data, s0, mbs, m, eps, etas, k))
    decreases k
  {
    if k > 0 {
      SagaAfterConsistent(data, s0, mbs, m, eps, etas, k - 1);
      SagaStepKeepsSum(data, SagaAfter(data, s0, mbs, m, eps, etas, k - 1), mbs[k - 1], m, eps, etas[k - 1]);
    }
  }

  /** `LogisticRegression` of the SAGA simulations. */
  class LogisticRegression {
    const X: seq<Vec>
    const y: seq<int>
    const XTest: seq<Vec>
    const yTest: seq<int>
    const sigma: real -> real
    const N: nat
    const d: nat
    const testSize: nat
    var beta: Vec
    /** n_iters x d chain; a zero-length array stands for None before `fit`. */
    var sample: array<Vec>
    var gradSample: array<Vec>
    /** One entry per checkpoint: the 0/1 test predictions the log loss scores. */
    var trainingLoss: seq<seq<int>>
    var lossThinning: nat
    var nIters: nat

    ghost predicate Valid()
      reads this, sample, gradSample
    {
      |X| == N && |y| == N && Rect(X, d) && |XTest| == testSize && |yTest| == testSize
      && Rect(XTest, d) && |beta| == d
      && sample != gradSample && Rect(sample[..], d) && Rect(gradSample[..], d)
    }

    function TrainingData(): Data
    {
      Data(X, y, sigma)
    }

    constructor (X: seq<Vec>, XTest: seq<Vec>, y: seq<int>, yTest: seq<int>, sigma: real -> real, d: nat)
      requires |y| == |X| && Rect(X, d) && |yTest| == |XTest| && Rect(XTest, d)
      ensures Valid()
      ensures this.X == X && this.XTest == XTest && this.y == y && this.yTest == yTest
      ensures this.sigma == sigma && N == |X| && this.d == d && testSize == |XTest|
      ensures beta == Zeros(d) && trainingLoss == [] && nIters == 0
      ensures sample.Length == 0 && gradSample.Length == 0
    {
      this.X, this.y, this.XTest, this.yTest, this.sigma := X, y, XTest, yTest, sigma;
      N, this.d, testSize := |X|, d, |XTest|;
      beta := Zeros(d);
      sample := new Vec[0];
      gradSample := new Vec[0];
      trainingLoss := [];
      lossThinning := 0;
      nIters := 0;
    }

    /** `dlogdens`: a `len(indices)` x d array whose row k holds the gradient of
        observation minibatch[k]; `indices` only sets the number of rows. */
    method DLogDens(minibatch: seq<nat>, indices: Option<seq<nat>>) returns (rows: seq<Vec>)
      requires Valid() && InRange(minibatch, N) && |minibatch| <= SampleSize(indices, minibatch)
      ensures rows == DensRows(TrainingData(), beta, minibatch, SampleSize(indices, minibatch))
      ensures |rows| == SampleSize(indices, minibatch) && Rect(rows, d)
      ensures forall k :: 0 <= k < |minibatch| ==> rows[k] == ObsGrad(TrainingData(), beta, minibatch[k])
      ensures forall k :: |minibatch| <= k < |rows| ==> rows[k] == Zeros(d)
    {
      var used := if indices.None? || indices.value == [] then minibatch else indices.value;
      var dlogbeta := new Vec[|used|](_ => Zeros(d));
      FillGrads(dlogbeta, minibatch);
      rows := dlogbeta[..];
      ghost var target := DensRows(TrainingData(), beta, minibatch, |used|);
      assert rows == target by {
        forall k | 0 <= k < |rows|
          ensures rows[k] == target[k]
        {
        }
      }
    }

    /** The loop of `dlogdens`: row i of the fresh array gets the gradient of
        observation minibatch[i]; the rows after the minibatch keep their zeros. */
    method FillGrads(dlogbeta: array<Vec>, minibatch: seq<nat>)
      requires Valid() && InRange(minibatch, N) && |minibatch| <= dlogbeta.Length
      modifies dlogbeta
      ensures forall k :: 0 <= k < |minibatch| ==> dlogbeta[k] == ObsGrad(TrainingData(), beta, minibatch[k])
      ensures forall k :: |minibatch| <= k < dlogbeta.Length ==> dlogbeta[k] == old(dlogbeta[k])
    {
      for i := 0 to |minibatch|
        invariant forall k :: 0 <= k < i ==> dlogbeta[k] == ObsGrad(TrainingData(), beta, minibatch[k])
        invariant forall k :: i <= k < dlogbeta.Length ==> dlogbeta[k] == old(dlogbeta[k])
      {
        var index := minibatch[i];
        dlogbeta[i] := Scale((y[index] as real) - sigma(Dot(beta, X[index])), X[index]);
      }
    }

    /** `self.sample[i, :] = beta` */
    method RecordSample(i: nat, b: Vec)
      requires i < sample.Length
      modifies sample
      ensures sample[..] == old(sample[..])[i := b]
    {
      sample[i] := b;
    }

    /** `logloss`: the test predictions at the current beta. */
    method LogLoss() returns (yPred: seq<int>)
      requires Valid()
      ensures yPred == Predictions(beta, XTest)
    {
      yPred := Predict(beta, XTest);
    }

    /** `loglossp`: the test predictions at a given parameter vector. */
    method LogLossP(b: Vec) returns (yPred: seq<int>)
      requires Valid() && |b| == d
      ensures yPred == Predictions(b, XTest)
    {
      yPred := Predict(b, XTest);
    }

    /** One pass of the `fit` loop for update k: the checkpoint before every
        10th update, the SAGA update, and `self.sample[k - 1, :] = self.beta`. */
    method FitIteration(fitter: Saga, k: nat, draw: seq<nat>, eta: Vec)
      requires Valid() && fitter.Valid() && fitter.n == N && fitter.d == d
      requires fitter.gAlphaI != sample && fitter.gAlphaI != gradSample
      requires 1 <= k <= sample.Length && fitter.minibatchSize > 0
      requires IsMinibatch(draw, N, fitter.minibatchSize) && |eta| == d
      modifies this, fitter, fitter.gAlphaI, sample
      ensures Valid() && fitter.Valid() && fitter.gAlphaI == old(fitter.gAlphaI)
      ensures sample == old(sample) && gradSample == old(gradSample)
      ensures lossThinning == old(lossThinning) && nIters == old(nIters)
      ensures fitter.epsilon == old(fitter.epsilon) && fitter.minibatchSize == old(fitter.minibatchSize)
      ensures fitter.iter == k
      ensures fitter.State(this)
           == SagaStep(TrainingData(), old(fitter.State(this)), draw, fitter.minibatchSize, fitter.epsilon, eta)
      ensures sample[..] == old(sample[..])[k - 1 := beta]
      ensures gradSample[..] == old(gradSample[..])
      ensures trainingLoss == old(trainingLoss)
        + (if k % LossThinning == 0 then [Predictions(old(beta), XTest)] else [])
    {
      fitter.iter := k;
      if k % LossThinning == 0 {
        var currentLoss := LogLoss();
        trainingLoss := trainingLoss + [currentLoss];
      }
      fitter.Update(this, draw, eta);
      RecordSample(k - 1, beta);
    }

    /** Update k of the `fit` loop, stated against the states of the whole run. */
    method RunIteration(fitter: Saga, ghost beta0: Vec, stepsize: real, nIters: nat, minibatchSize: nat,
                        draws: seq<seq<nat>>, etas: seq<Vec>, k: nat)
      requires Valid() && fitter.Valid() && fitter.n == N && fitter.d == d && |beta0| == d
      requires fitter.gAlphaI != sample && fitter.gAlphaI != gradSample
      requires fitter.epsilon == stepsize && fitter.minibatchSize == minibatchSize && minibatchSize > 0
      requires |draws| == nIters + 1 && Draws(draws, N, minibatchSize)
      requires |etas| == nIters && Noises(etas, d)
      requires sample.Length == nIters && 1 <= k <= nIters
      requires fitter.State(this) == SagaFitState(TrainingData(), beta0, draws, minibatchSize, stepsize, etas, k - 1)
      requires sample[..k - 1] == SagaBetas(TrainingData(), beta0, draws, minibatchSize, stepsize, etas, k - 1)
      requires trainingLoss
            == Checkpoints(SagaChain(TrainingData(), beta0, draws, minibatchSize, stepsize, etas, nIters), XTest, d, k - 1)
      modifies this, fitter, fitter.gAlphaI, sample
      ensures Valid() && fitter.Valid() && fitter.gAlphaI == old(fitter.gAlphaI)
      ensures sample == old(sample) && gradSample == old(gradSample)
      ensures lossThinning == old(lossThinning) && this.nIters == old(this.nIters)
      ensures fitter.epsilon == stepsize && fitter.minibatchSize == minibatchSize
      ensures fitter.State(this) == SagaFitState(TrainingData(), beta0, draws, minibatchSize, stepsize, etas, k)
      ensures sample[..k] == SagaBetas(TrainingData(), beta0, draws, minibatchSize, stepsize, etas, k)
      ensures gradSample[..] == old(gradSample[..])
      ensures trainingLoss
           == Checkpoints(SagaChain(TrainingData(), beta0, draws, minibatchSize, stepsize, etas, nIters), XTest, d, k)
    {
      ghost var data := TrainingData();
      SagaFitStateNext(data, beta0, draws, minibatchSize, stepsize, etas, k);
      SagaCheckpointsNext(data, beta0, draws, minibatchSize, stepsize, etas, XTest, nIters, k);
      FitIteration(fitter, k, draws[k], etas[k - 1]);
      assert sample[..k] == sample[..k - 1] + [beta];
    }

    /** The loop of `fit`: updates 1, ..., n_iters, starting from the state the
        SAGA constructor built. */
    method RunUpdates(fitter: Saga, ghost beta0: Vec, stepsize: real, nIters: nat, minibatchSize: nat,
                      draws: seq<seq<nat>>, etas: seq<Vec>)
      requires Valid() && fitter.Valid() && fitter.n == N && fitter.d == d && |beta0| == d
      requires fitter.gAlphaI != sample && fitter.gAlphaI != gradSample
      requires fitter.epsilon == stepsize && fitter.minibatchSize == minibatchSize && minibatchSize > 0
      requires |draws| == nIters + 1 && Draws(draws, N, minibatchSize)
      requires |etas| == nIters && Noises(etas, d)
      requires sample.Length == nIters && gradSample.Length == nIters && trainingLoss == []
      requires fitter.State(this) == SagaFitState(TrainingData(), beta0, draws, minibatchSize, stepsize, etas, 0)
      modifies this, fitter, fitter.gAlphaI, sample
      ensures Valid() && sample == old(sample) && gradSample == old(gradSample)
      ensures lossThinning == old(lossThinning) && this.nIters == old(this.nIters)
      ensures sample[..] == SagaBetas(TrainingData(), beta0, draws, minibatchSize, stepsize, etas, nIters)
      ensures beta == SagaFitState(TrainingData(), beta0, draws, minibatchSize, stepsize, etas, nIters).beta
      ensures gradSample[..] == old(gradSample[..])
      ensures trainingLoss
           == Checkpoints(SagaChain(TrainingData(), beta0, draws, minibatchSize, stepsize, etas, nIters), XTest, d, nIters)
    {
      ghost var data := TrainingData();
      for k := 1 to nIters + 1
        invariant Valid() && fitter.Valid() && fitter.n == N && fitter.d == d
        invariant sample == old(sample) && gradSample == old(gradSample)
        invariant lossThinning == old(lossThinning) && this.nIters == old(this.nIters)
        invariant fitter.gAlphaI == old(fitter.gAlphaI)
        invariant fitter.epsilon == stepsize && fitter.minibatchSize == minibatchSize
        invariant fitter.State(this) == SagaFitState(data, beta0, draws, minibatchSize, stepsize, etas, k - 1)
        invariant sample[..k - 1] == SagaBetas(data, beta0, draws, minibatchSize, stepsize, etas, k - 1)
        invariant gradSample[..] == old(gradSample[..])
        invariant trainingLoss
               == Checkpoints(SagaChain(data, beta0, draws, minibatchSize, stepsize, etas, nIters), XTest, d, k - 1)
      {
        RunIteration(fitter, beta0, stepsize, nIters, minibatchSize, draws, etas, k);
      }
      assert sample[..] == sample[..nIters];
    }

    /** `fit`: run n_iters SAGA updates from the current beta, storing beta after
        update k in sample row k - 1 and the test predictions before every 10th
        update. draws[0] is the minibatch the SAGA constructor samples, draws[k]
        the one update k samples, etas[k - 1] its noise. */
    method Fit(stepsize: real, nIters: nat, minibatchSize: nat, draws: seq<seq<nat>>, etas: seq<Vec>)
      requires Valid() && minibatchSize > 0
      requires |draws| == nIters + 1 && Draws(draws, N, minibatchSize)
      requires |etas| == nIters && Noises(etas, d)
      modifies this
      ensures Valid() && fresh(sample) && fresh(gradSample)
      ensures this.nIters == nIters && lossThinning == LossThinning
      ensures sample.Length == nIters && gradSample.Length == nIters
      ensures sample[..] == SagaBetas(TrainingData(), old(beta), draws, minibatchSize, stepsize, etas, nIters)
      ensures beta == SagaFitState(TrainingData(), old(beta), draws, minibatchSize, stepsize, etas, nIters).beta
      ensures forall k :: 0 <= k < nIters ==> gradSample[k] == Zeros(d)
      ensures trainingLoss
           == Checkpoints(SagaChain(TrainingData(), old(beta), draws, minibatchSize, stepsize, etas, nIters), XTest, d, nIters)
    {
      ghost var beta0 := beta;
      trainingLoss := [];
      lossThinning := LossThinning;
      this.nIters := nIters;
      sample := new Vec[nIters](_ => Zeros(d));
      gradSample := new Vec[nIters](_ => Zeros(d));
      MinibatchBound(draws[0], N, minibatchSize);
      var fitter := new Saga(this, stepsize, minibatchSize, nIters, draws[0]);
      RunUpdates(fitter, beta0, stepsize, nIters, minibatchSize, draws, etas);
    }
  }

  /** `SAGA`: the fitter object, holding the gradient table and its sum. */
  class Saga {
    var epsilon: real
    var minibatchSize: nat
    var minibatch: seq<nat>
    var iter: int
    var output: array<Vec>
    var gAlphaI: array<Vec>
    var gAlpha: Vec
    ghost const n: nat
    ghost const d: nat

    /** The object invariant, including `g_alpha == g_alpha_i.sum(axis = 0)`. */
    ghost predicate Valid()
      reads this, gAlphaI
    {
      gAlphaI.Length == n && Rect(gAlphaI[..], d) && |gAlpha| == d
      && gAlpha == ColumnSums(gAlphaI[..], d)
      && IsMinibatch(minibatch, n, minibatchSize)
    }

    ghost function State(lr: LogisticRegression): SagaState
      reads this, gAlphaI, lr
    {
      SagaState(gAlphaI[..], gAlpha, lr.beta)
    }

    /** `SAGA.__init__`: draws the first minibatch and fills the table from
        `dlogdens(self, xrange(N))` at the current beta. */
    constructor (lr: LogisticRegression, epsilon: real, minibatchSize: nat, nIter: nat, draw: seq<nat>)
      requires lr.Valid() && IsMinibatch(draw, lr.N, minibatchSize)
      ensures Valid() && n == lr.N && d == lr.d
      ensures fresh(gAlphaI) && fresh(output)
      ensures this.epsilon == epsilon && this.minibatchSize == minibatchSize
      ensures minibatch == draw && iter == 1
      ensures output.Length == nIter && forall i :: 0 <= i < nIter ==> output[i] == Zeros(lr.d)
      ensures State(lr) == SagaInit(lr.TrainingData(), lr.beta, draw)
    {
      MinibatchBound(draw, lr.N, minibatchSize);
      var rows := lr.DLogDens(draw, Some(Range(lr.N)));
      this.epsilon := epsilon;
      this.minibatchSize := minibatchSize;
      minibatch := draw;
      iter := 1;
      output := new Vec[nIter](_ => Zeros(lr.d));
      gAlphaI := new Vec[|rows|](k requires 0 <= k < |rows| => rows[k]);
      gAlpha := ColumnSums(rows, lr.d);
      n, d := lr.N, lr.d;
      new;
      assert gAlphaI[..] == rows;
    }

    /** `sample_minibatch`: the draw is an input. */
    method SampleMinibatch(lr: LogisticRegression, draw: seq<nat>)
      requires IsMinibatch(draw, lr.N, minibatchSize)
      modifies this`minibatch
      ensures minibatch == draw
    {
      minibatch := draw;
    }

    /** The fancy assignment `g_alpha_i[minibatch, :] = rows`, row by row. */
    method WriteRows(mb: seq<nat>, rows: seq<Vec>)
      requires |mb| == |rows| && InRange(mb, gAlphaI.Length) && Rect(gAlphaI[..], d) && Rect(rows, d)
      modifies gAlphaI
      ensures gAlphaI[..] == Scatter(old(gAlphaI[..]), mb, rows, d)
    {
      ghost var t := gAlphaI[..];
      for k := 0 to |mb|
        invariant gAlphaI[..] == Scatter(t, mb[..k], rows[..k], d)
      {
        ScatterPrefix(t, mb, rows, d, k);
        gAlphaI[mb[k]] := rows[k];
      }
      assert mb[..|mb|] == mb && rows[..|rows|] == rows;
    }

    /** `update`: one SAGA step with minibatch draw and noise eta. */
    method Update(lr: LogisticRegression, draw: seq<nat>, eta: Vec)
      requires Valid() && lr.Valid() && lr.N == n && lr.d == d
      requires gAlphaI != lr.sample && gAlphaI != lr.gradSample
      requires IsMinibatch(draw, n, minibatchSize) && minibatchSize > 0 && |eta| == d
      modifies this, gAlphaI, lr`beta
      ensures Valid() && lr.Valid() && gAlphaI == old(gAlphaI) && minibatch == draw
      ensures epsilon == old(epsilon) && minibatchSize == old(minibatchSize)
      ensures iter == old(iter) && output == old(output)
      ensures State(lr) == SagaStep(lr.TrainingData(), old(State(lr)), draw, minibatchSize, epsilon, eta)
    {
      ghost var s := State(lr);
      SampleMinibatch(lr, draw);
      var dlogdensgradsBeta := lr.DLogDens(minibatch, None);
      assert dlogdensgradsBeta == Grads(lr.TrainingData(), lr.beta, minibatch);
      var loglikgradestBeta := ColumnSums(dlogdensgradsBeta, lr.d);
      var mb := minibatch;
      var loglikgradestAlpha := ColumnSums(Gather(gAlphaI[..], mb), lr.d);
      var dlogbeta := DLogPostEst(gAlpha, lr.N, minibatchSize, loglikgradestAlpha, loglikgradestBeta, lr.beta);
      gAlpha := Add(gAlpha, Sub(loglikgradestBeta, loglikgradestAlpha));
      WriteRows(mb, dlogdensgradsBeta);
      lr.beta := LangevinStep(lr.beta, epsilon, dlogbeta, eta);
      SagaStepKeepsSum(lr.TrainingData(), s, draw, minibatchSize, epsilon, eta);
    }
  }
}
