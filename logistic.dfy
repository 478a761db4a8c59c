/** Bayesian logistic regression pieces shared by every sampler: the training
    data, the per-observation log-likelihood gradient, the Langevin step and the
    0/1 thresholding that the held-out log loss is computed from. */
module Logistic {
  import opened Vectors
  import opened Indices

  /** Training features (N rows of length d, bias column included), 0/1 labels,
      and the logistic sigmoid `z |-> 1 / (1 + exp(-z))`, which is taken as given. */
  datatype Data = Data(X: seq<Vec>, y: seq<int>, sigma: real -> real)

  predicate WellFormed(data: Data, d: nat)
  {
    |data.y| == |data.X| && Rect(data.X, d)
  }

  /** Gradient of the log density of observation i at beta: `(y - sigma(beta . x)) * x`. */
  function ObsGrad(data: Data, beta: Vec, i: nat): (g: Vec)
    requires WellFormed(data, |beta|) && i < |data.X|
    ensures |g| == |beta|
  {
    Scale((data.y[i] as real) - data.sigma(Dot(beta, data.X[i])), data.X[i])
  }

  /** The per-observation gradients for the indices idx, one row each, in idx's order. */
  function Grads(data: Data, beta: Vec, idx: seq<nat>): (r: seq<Vec>)
    requires WellFormed(data, |beta|) && InRange(idx, |data.X|)
    ensures |r| == |idx| && Rect(r, |beta|)
    ensures forall k :: 0 <= k < |idx| ==> r[k] == ObsGrad(data, beta, idx[k])
  {
    seq(|idx|, k requires 0 <= k < |idx| => ObsGrad(data, beta, idx[k]))
  }

  /** Sum of the log-likelihood gradients over the indices idx. */
  function LikGradSum(data: Data, beta: Vec, idx: seq<nat>): (r: Vec)
    requires WellFormed(data, |beta|) && InRange(idx, |data.X|)
    ensures |r| == |beta|
  {
    ColumnSums(Grads(data, beta, idx), |beta|)
  }

  /** Adding observation idx[i] to the running sum, as the accumulation loops do. */
  lemma LikGradSumSnoc(data: Data, beta: Vec, idx: seq<nat>, i: nat)
    requires WellFormed(data, |beta|) && InRange(idx, |data.X|) && i < |idx|
    ensures LikGradSum(data, beta, idx[..i + 1]) == Add(LikGradSum(data, beta, idx[..i]), ObsGrad(data, beta, idx[i]))
  {
    var d := |beta|;
    assert Grads(data, beta, idx[..i + 1]) == Grads(data, beta, idx[..i]) + [ObsGrad(data, beta, idx[i])];
    ColumnSumsSnoc(Grads(data, beta, idx[..i]), ObsGrad(data, beta, idx[i]), d);
  }

  /** The full-batch log-likelihood gradient, summed over all N observations. */
  function FullGrad(data: Data, beta: Vec): (r: Vec)
    requires WellFormed(data, |beta|)
    ensures |r| == |beta|
  {
    LikGradSum(data, beta, Range(|data.X|))
  }

  /** A minibatch of size N sums to the full-batch gradient, whatever its order. */
  lemma LikGradSumFullBatch(data: Data, beta: Vec, mb: seq<nat>)
    requires WellFormed(data, |beta|) && IsMinibatch(mb, |data.X|, |data.X|)
    ensures LikGradSum(data, beta, mb) == FullGrad(data, beta)
  {
    var d := |beta|;
    var all := Grads(data, beta, Range(|data.X|));
    assert Grads(data, beta, mb) == Gather(all, mb);
    forall j | 0 <= j < d
      ensures LikGradSum(data, beta, mb)[j] == FullGrad(data, beta)[j]
    {
      SumColGatherPermutation(all, d, mb, j);
    }
  }

  /** One minibatch per draw, each m distinct indices in [0, n). */
  predicate Draws(mbs: seq<seq<nat>>, n: nat, m: nat)
  {
    forall i :: 0 <= i < |mbs| ==> IsMinibatch(mbs[i], n, m)
  }

  /** One noise vector of length d per update. */
  predicate Noises(etas: seq<Vec>, d: nat)
  {
    forall i :: 0 <= i < |etas| ==> |etas[i]| == d
  }

  /** `beta += eps / 2 * g + noise`: one Langevin step along the gradient estimate g. */
  function LangevinStep(beta: Vec, eps: real, g: Vec, noise: Vec): (r: Vec)
    requires |g| == |beta| && |noise| == |beta|
    ensures |r| == |beta|
  {
    Add(beta, Add(Scale(eps / 2.0, g), noise))
  }

  /** Without noise the step is a plain gradient-ascent step of size eps / 2, and
      every coordinate moves in the direction of its gradient entry. */
  lemma NoiselessStepAscends(beta: Vec, eps: real, g: Vec)
    requires |g| == |beta| && eps > 0.0
    ensures LangevinStep(beta, eps, g, Zeros(|beta|)) == Add(beta, Scale(eps / 2.0, g))
    ensures forall j :: 0 <= j < |beta| ==>
      Sign(LangevinStep(beta, eps, g, Zeros(|beta|))[j] - beta[j]) == Sign(g[j])
  {
    var r := LangevinStep(beta, eps, g, Zeros(|beta|));
    forall j | 0 <= j < |beta|
      ensures r[j] == beta[j] + (eps / 2.0) * g[j]
    {
    }
    forall j | 0 <= j < |beta|
      ensures Sign(r[j] - beta[j]) == Sign(g[j])
    {
      var h := eps / 2.0;
      assert h > 0.0;
      if g[j] > 0.0 {
        assert h * g[j] > 0.0;
      } else if g[j] < 0.0 {
        assert h * g[j] < 0.0;
      }
    }
  }

  /** `int(np.dot(beta, x) >= 0.0)` */
  function Prediction(beta: Vec, x: Vec): int
    requires |x| == |beta|
  {
    if Dot(beta, x) >= 0.0 then 1 else 0
  }

  function Predictions(beta: Vec, XTest: seq<Vec>): (r: seq<int>)
    requires Rect(XTest, |beta|)
    ensures |r| == |XTest|
  {
    seq(|XTest|, i requires 0 <= i < |XTest| => Prediction(beta, XTest[i]))
  }

  /** The loop of `logloss` / `loglossp` that fills `y_pred` before it is scored:
      test row i is predicted 1 exactly when beta . x_i >= 0, and 0 otherwise. */
  method Predict(beta: Vec, XTest: seq<Vec>) returns (yPred: seq<int>)
    requires Rect(XTest, |beta|)
    ensures |yPred| == |XTest|
    ensures forall i :: 0 <= i < |XTest| ==> (yPred[i] == 1 <==> Dot(beta, XTest[i]) >= 0.0)
    ensures forall i :: 0 <= i < |XTest| ==> (yPred[i] == 0 <==> Dot(beta, XTest[i]) < 0.0)
    ensures yPred == Predictions(beta, XTest)
  {
    var pred := new int[|XTest|](_ => 0);
    for i := 0 to |XTest|
      invariant forall k :: 0 <= k < i ==> pred[k] == Prediction(beta, XTest[k])
    {
      pred[i] := if Dot(beta, XTest[i]) >= 0.0 then 1 else 0;
    }
    yPred := pred[..];
  }

  /** The all-zero starting point predicts class 1 for every test row. */
  lemma ZeroBetaPredictsOne(d: nat, XTest: seq<Vec>)
    requires Rect(XTest, d)
    ensures forall i :: 0 <= i < |XTest| ==> Predictions(Zeros(d), XTest)[i] == 1
  {
    forall i | 0 <= i < |XTest|
      ensures Dot(Zeros(d), XTest[i]) == 0.0
    {
      DotZeroLeft(Zeros(d), XTest[i]);
    }
  }

  /** Thresholding at zero only sees the direction of beta: scaling it by a
      positive factor leaves every prediction unchanged. */
  lemma PredictionsScaleInvariant(c: real, beta: Vec, XTest: seq<Vec>)
    requires c > 0.0 && Rect(XTest, |beta|)
    ensures Predictions(Scale(c, beta), XTest) == Predictions(beta, XTest)
  {
    forall i | 0 <= i < |XTest|
      ensures Prediction(Scale(c, beta), XTest[i]) == Prediction(beta, XTest[i])
    {
      var z := Dot(beta, XTest[i]);
      DotScaleLeft(c, beta, XTest[i]);
      if z >= 0.0 {
        assert c * z >= 0.0;
      } else {
        assert c * z < 0.0;
      }
    }
  }

  /** `fit` records the test loss before every 10th update. */
  const LossThinning: nat := 10

  /** The test predictions `fit` has recorded after k updates of a run whose
      parameter vector after j updates is chain[j]: checkpoint i is taken
      before update 10 * (i + 1), so it sees chain[10 * i + 9]. */
  function Checkpoints(chain: seq<Vec>, XTest: seq<Vec>, d: nat, k: nat): (r: seq<seq<int>>)
    requires Rect(chain, d) && Rect(XTest, d) && k < |chain|
    ensures |r| == k / LossThinning
  {
    seq(k / 10, i requires 0 <= i < k / 10 => Predictions(chain[10 * i + 9], XTest))
  }

  /** Update k adds a checkpoint exactly when k is a multiple of LossThinning,
      and that checkpoint sees the state before update k; otherwise the record
      is unchanged. */
  lemma CheckpointsNext(chain: seq<Vec>, XTest: seq<Vec>, d: nat, k: nat)
    requires Rect(chain, d) && Rect(XTest, d) && 1 <= k < |chain|
    ensures Checkpoints(chain, XTest, d, k)
         == Checkpoints(chain, XTest, d, k - 1)
          + (if k % LossThinning == 0 then [Predictions(chain[k - 1], XTest)] else [])
  {
    if k % LossThinning == 0 {
      var c := (k - 1) / LossThinning;
      assert k / LossThinning == c + 1 && LossThinning * c + 9 == k - 1;
      var prev := Checkpoints(chain, XTest, d, k - 1);
      var next := Checkpoints(chain, XTest, d, k);
      assert next[..c] == prev;
      assert next == next[..c] + [next[c]];
    } else {
      assert k / LossThinning == (k - 1) / LossThinning;
    }
  }
}
