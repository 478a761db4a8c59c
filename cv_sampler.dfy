/** SGLD with a control variate anchored at the posterior mode, and the
    `LogisticRegression` class of the control-variate simulations that drives
    it: the mode-anchored fitter is the `ZVSGLD` of the zero-variance
    package, whose `full_post` / `dlogpostcv` interface this class provides. */
module CvSampler {
  import opened Vectors
  import opened Indices
  import opened Logistic
  import opened ZeroVariance

  /** `dlogpost` at beta over minibatch mb: the likelihood-gradient sum scaled
      by `N / minibatch_size`, which is Python 2 integer division, minus the
      Laplace prior term sign(beta). */
  function PostGrad(data: Data, beta: Vec, mb: seq<nat>, m: nat): (r: Vec)
    requires WellFormed(data, |beta|) && InRange(mb, |data.X|) && m > 0
    ensures |r| == |beta|
  {
    Sub(Scale((|data.X| / m) as real, LikGradSum(data, beta, mb)), SignVec(beta))
  }

  /** The integer scale floor(N / m) is never above the real ratio N / m, and
      equals it exactly when m divides N. */
  lemma IntegerScale(n: nat, m: nat)
    requires m > 0
    ensures ((n / m) as real) <= (n as real) / (m as real)
    ensures ((n / m) as real == (n as real) / (m as real)) <==> n % m == 0
  {
    var q, r := n / m, n % m;
    var qr, mr, rr := q as real, m as real, r as real;
    assert n == q * m + r;
    assert (q * m) as real == qr * mr;
    assert n as real == qr * mr + rr;
    assert (n as real) / mr == qr + rr / mr;
    if r > 0 {
      assert rr / mr > 0.0;
    }
  }

  /** With m = N the minibatch is a permutation of all observations and the
      estimate is the full-batch log-posterior gradient. */
  lemma PostGradFullBatch(data: Data, beta: Vec, mb: seq<nat>)
    requires WellFormed(data, |beta|) && |data.X| > 0 && IsMinibatch(mb, |data.X|, |data.X|)
    ensures PostGrad(data, beta, mb, |data.X|) == Sub(FullGrad(data, beta), SignVec(beta))
  {
    var n := |data.X|;
    assert n / n == 1;
    LikGradSumFullBatch(data, beta, mb);
  }

  /** When m divides N the integer scale is the exact ratio N / m, the one the
      SAGA estimator uses. */
  lemma PostGradExactScale(data: Data, beta: Vec, mb: seq<nat>, m: nat)
    requires WellFormed(data, |beta|) && InRange(mb, |data.X|) && m > 0 && |data.X| % m == 0
    ensures PostGrad(data, beta, mb, m)
         == Sub(Scale((|data.X| as real) / (m as real), LikGradSum(data, beta, mb)), SignVec(beta))
  {
    IntegerScale(|data.X|, m);
  }

  /** `full_post`: `minibatch_size / float(N)` times `dlogpost` at the mode over
      all N observations, with the integer scale floor(N / m). */
  function ModeFullPost(data: Data, betaMode: Vec, m: nat): (r: Vec)
    requires WellFormed(data, |betaMode|) && |data.X| > 0 && m > 0
    ensures |r| == |betaMode|
  {
    Scale((m as real) / (|data.X| as real), PostGrad(data, betaMode, Range(|data.X|), m))
  }

  /** When m divides n, m / n undoes the integer scale n / m. */
  lemma UnitRatio(n: nat, m: nat)
    requires n > 0 && m > 0 && n % m == 0
    ensures ((m as real) / (n as real)) * ((n / m) as real) == 1.0
  {
    IntegerScale(n, m);
  }

  /** Scaling `q * L - S` by the inverse c of q leaves L and c times S. */
  lemma ScaleBack(c: real, q: real, L: Vec, S: Vec)
    requires c * q == 1.0 && |L| == |S|
    ensures Scale(c, Sub(Scale(q, L), S)) == Sub(L, Scale(c, S))
  {
    var r, e := Scale(c, Sub(Scale(q, L), S)), Sub(L, Scale(c, S));
    forall j | 0 <= j < |L|
      ensures r[j] == e[j]
    {
      calc {
        r[j];
        c * (q * L[j] - S[j]);
        (c * q) * L[j] - c * S[j];
      }
    }
  }

  /** When m divides N, `full_post` is the full-batch likelihood gradient at
      the mode minus only the fraction m / N of the prior term sign(mode). */
  lemma FullPostExact(data: Data, betaMode: Vec, m: nat)
    requires WellFormed(data, |betaMode|) && |data.X| > 0 && m > 0 && |data.X| % m == 0
    ensures ModeFullPost(data, betaMode, m)
         == Sub(FullGrad(data, betaMode), Scale((m as real) / (|data.X| as real), SignVec(betaMode)))
  {
    var n := |data.X|;
    var c := (m as real) / (n as real);
    var q := (n / m) as real;
    UnitRatio(n, m);
    var L := FullGrad(data, betaMode);
    assert ModeFullPost(data, betaMode, m) == Scale(c, Sub(Scale(q, L), SignVec(betaMode)));
    ScaleBack(c, q, L, SignVec(betaMode));
  }

  /** The drift of the mode-anchored step: `full_post + (dlogbeta - dlogbetaopt)`. */
  function ZvDrift(data: Data, betaMode: Vec, fullPost: Vec, beta: Vec, mb: seq<nat>, m: nat): (r: Vec)
    requires WellFormed(data, |beta|) && |betaMode| == |beta| && |fullPost| == |beta|
    requires InRange(mb, |data.X|) && m > 0
    ensures |r| == |beta|
  {
    Add(fullPost, Sub(PostGrad(data, beta, mb, m), PostGrad(data, betaMode, mb, m)))
  }

  /** `update` of the mode-anchored sampler: a Langevin step along ZvDrift with
      noise `sqrt(eps) * z`. */
  function ZvStep(data: Data, betaMode: Vec, fullPost: Vec, beta: Vec, mb: seq<nat>, m: nat,
                  eps: real, noise: Vec): (r: Vec)
    requires WellFormed(data, |beta|) && |betaMode| == |beta| && |fullPost| == |beta| && |noise| == |beta|
    requires InRange(mb, |data.X|) && m > 0
    ensures |r| == |beta|
  {
    LangevinStep(beta, eps, ZvDrift(data, betaMode, fullPost, beta, mb, m), noise)
  }

  /** At the mode the two minibatch estimates cancel and the drift is `full_post`
      alone, whatever the minibatch. */
  lemma ZvDriftAtMode(data: Data, betaMode: Vec, fullPost: Vec, mb: seq<nat>, m: nat)
    requires WellFormed(data, |betaMode|) && |fullPost| == |betaMode| && InRange(mb, |data.X|) && m > 0
    ensures ZvDrift(data, betaMode, fullPost, betaMode, mb, m) == fullPost
  {
    var g := PostGrad(data, betaMode, mb, m);
    var r := ZvDrift(data, betaMode, fullPost, betaMode, mb, m);
    forall j | 0 <= j < |fullPost|
      ensures r[j] == fullPost[j]
    {
      assert Sub(g, g)[j] == 0.0;
    }
  }

  /** With m = N and `full_post` computed as `fit` does, the drift is the exact
      full-batch log-posterior gradient at beta: the control variate then
      removes all minibatch noise. */
  lemma ZvDriftFullBatch(data: Data, betaMode: Vec, beta: Vec, mb: seq<nat>)
    requires WellFormed(data, |beta|) && |betaMode| == |beta| && |data.X| > 0
    requires IsMinibatch(mb, |data.X|, |data.X|)
    ensures ZvDrift(data, betaMode, ModeFullPost(data, betaMode, |data.X|), beta, mb, |data.X|)
         == Sub(FullGrad(data, beta), SignVec(beta))
  {
    var n := |data.X|;
    var all := Range(n);
    assert IsMinibatch(all, n, n);
    PostGradFullBatch(data, beta, mb);
    PostGradFullBatch(data, betaMode, mb);
    PostGradFullBatch(data, betaMode, all);
    assert (n as real) / (n as real) == 1.0;
    var fp := ModeFullPost(data, betaMode, n);
    var gm := Sub(FullGrad(data, betaMode), SignVec(betaMode));
    assert fp == gm;
    var r := ZvDrift(data, betaMode, fp, beta, mb, n);
    var e := Sub(FullGrad(data, beta), SignVec(beta));
    forall j | 0 <= j < |beta|
      ensures r[j] == e[j]
    {
    }
  }

  /** beta after k updates of `fit`, which starts from the mode. draws[0] is
      the constructor's minibatch and draws[k] the one update k samples; zs[k - 1]
      is its standard normal draw, scaled by rootEps = sqrt(eps). */
  function ZvBeta(data: Data, betaMode: Vec, draws: seq<seq<nat>>, m: nat, eps: real, rootEps: real,
                  zs: seq<Vec>, k: nat): (r: Vec)
    requires WellFormed(data, |betaMode|) && |data.X| > 0 && m > 0 && Draws(draws, |data.X|, m)
    requires Noises(zs, |betaMode|) && k < |draws| && k <= |zs|
    ensures |r| == |betaMode|
    decreases k
  {
    if k == 0 then betaMode
    else ZvStep(data, betaMode, ModeFullPost(data, betaMode, m), ZvBeta(data, betaMode, draws, m, eps, rootEps, zs, k - 1),
                draws[k], m, eps, Scale(rootEps, zs[k - 1]))
  }

  /** The chain rows after updates 1, ..., k: update k appends beta after k updates. */
  function ZvBetas(data: Data, betaMode: Vec, draws: seq<seq<nat>>, m: nat, eps: real, rootEps: real,
                   zs: seq<Vec>, k: nat): (r: seq<Vec>)
    requires WellFormed(data, |betaMode|) && |data.X| > 0 && m > 0 && Draws(draws, |data.X|, m)
    requires Noises(zs, |betaMode|) && k < |draws| && k <= |zs|
    ensures |r| == k
    decreases k
  {
    if k == 0 then []
    else ZvBetas(data, betaMode, draws, m, eps, rootEps, zs, k - 1) + [ZvBeta(data, betaMode, draws, m, eps, rootEps, zs, k)]
  }

  /** The gradient rows after updates 1, ..., k: update k appends the
      uncorrected estimate `dlogbeta` at the beta it started from. */
  function ZvGrads(data: Data, betaMode: Vec, draws: seq<seq<nat>>, m: nat, eps: real, rootEps: real,
                   zs: seq<Vec>, k: nat): (r: seq<Vec>)
    requires WellFormed(data, |betaMode|) && |data.X| > 0 && m > 0 && Draws(draws, |data.X|, m)
    requires Noises(zs, |betaMode|) && k < |draws| && k <= |zs|
    ensures |r| == k
    decreases k
  {
    if k == 0 then []
    else ZvGrads(data, betaMode, draws, m, eps, rootEps, zs, k - 1)
           + [PostGrad(data, ZvBeta(data, betaMode, draws, m, eps, rootEps, zs, k - 1), draws[k], m)]
  }

  /** Row i of the chain after k updates is beta after update i + 1: later
      updates never rewrite an earlier row. */
  lemma {:induction false} ZvBetasAt(data: Data, betaMode: Vec, draws: seq<seq<nat>>, m: nat, eps: real,
                                     rootEps: real, zs: seq<Vec>, k: nat, i: nat)
    requires WellFormed(data, |betaMode|) && |data.X| > 0 && m > 0 && Draws(draws, |data.X|, m)
    requires Noises(zs, |betaMode|) && k < |draws| && k <= |zs| && i < k
    ensures ZvBetas(data, betaMode, draws, m, eps, rootEps, zs, k)[i]
         == ZvBeta(data, betaMode, draws, m, eps, rootEps, zs, i + 1)
    decreases k
  {
    var prev := ZvBetas(data, betaMode, draws, m, eps, rootEps, zs, k - 1);
    var last := ZvBeta(data, betaMode, draws, m, eps, rootEps, zs, k);
    assert ZvBetas(data, betaMode, draws, m, eps, rootEps, zs, k) == prev + [last];
    if i < k - 1 {
      ZvBetasAt(data, betaMode, draws, m, eps, rootEps, zs, k - 1, i);
      assert (prev + [last])[i] == prev[i];
    }
  }

  /** The row that update i + 1 appends to the gradient rows. */
  lemma ZvGradsLast(data: Data, betaMode: Vec, draws: seq<seq<nat>>, m: nat, eps: real,
                    rootEps: real, zs: seq<Vec>, i: nat)
    requires WellFormed(data, |betaMode|) && |data.X| > 0 && m > 0 && Draws(draws, |data.X|, m)
    requires Noises(zs, |betaMode|) && i + 1 < |draws| && i + 1 <= |zs|
    ensures ZvGrads(data, betaMode, draws, m, eps, rootEps, zs, i + 1)[i]
         == PostGrad(data, ZvBeta(data, betaMode, draws, m, eps, rootEps, zs, i), draws[i + 1], m)
  {
    var prev := ZvGrads(data, betaMode, draws, m, eps, rootEps, zs, i);
    var last := PostGrad(data, ZvBeta(data, betaMode, draws, m, eps, rootEps, zs, i), draws[i + 1], m);
    assert ZvGrads(data, betaMode, draws, m, eps, rootEps, zs, i + 1) == prev + [last];
  }

  /** Update k leaves the rows appended by earlier updates as they were. */
  lemma ZvGradsKept(data: Data, betaMode: Vec, draws: seq<seq<nat>>, m: nat, eps: real,
                    rootEps: real, zs: seq<Vec>, k: nat, i: nat)
    requires WellFormed(data, |betaMode|) && |data.X| > 0 && m > 0 && Draws(draws, |data.X|, m)
    requires Noises(zs, |betaMode|) && k < |draws| && k <= |zs| && i < k - 1
    ensures ZvGrads(data, betaMode, draws, m, eps, rootEps, zs, k)[i]
         == ZvGrads(data, betaMode, draws, m, eps, rootEps, zs, k - 1)[i]
  {
    var prev := ZvGrads(data, betaMode, draws, m, eps, rootEps, zs, k - 1);
    var last := PostGrad(data, ZvBeta(data, betaMode, draws, m, eps, rootEps, zs, k - 1), draws[k], m);
    assert ZvGrads(data, betaMode, draws, m, eps, rootEps, zs, k) == prev + [last];
  }

  /** Equal update counts give equal gradient rows. */
  lemma ZvGradsSame(data: Data, betaMode: Vec, draws: seq<seq<nat>>, m: nat, eps: real,
                    rootEps: real, zs: seq<Vec>, k: nat, k': nat)
    requires WellFormed(data, |betaMode|) && |data.X| > 0 && m > 0 && Draws(draws, |data.X|, m)
    requires Noises(zs, |betaMode|) && k < |draws| && k <= |zs| && k == k'
    ensures ZvGrads(data, betaMode, draws, m, eps, rootEps, zs, k)
         == ZvGrads(data, betaMode, draws, m, eps, rootEps, zs, k')
  {
  }

  /** With no later update, row i is the row update i + 1 appended. */
  lemma ZvGradsPrefixBase(data: Data, betaMode: Vec, draws: seq<seq<nat>>, m: nat, eps: real,
                          rootEps: real, zs: seq<Vec>, k: nat, i: nat)
    requires WellFormed(data, |betaMode|) && |data.X| > 0 && m > 0 && Draws(draws, |data.X|, m)
    requires Noises(zs, |betaMode|) && k < |draws| && k <= |zs| && k == i + 1
    ensures ZvGrads(data, betaMode, draws, m, eps, rootEps, zs, k)[i]
         == ZvGrads(data, betaMode, draws, m, eps, rootEps, zs, i + 1)[i]
  {
    var now := ZvGrads(data, betaMode, draws, m, eps, rootEps, zs, k);
    var first := ZvGrads(data, betaMode, draws, m, eps, rootEps, zs, i + 1);
    ZvGradsSame(data, betaMode, draws, m, eps, rootEps, zs, k, i + 1);
    assert now == first;
  }

  /** Later updates never rewrite the row that update i + 1 appended. */
  lemma {:induction false} ZvGradsPrefix(data: Data, betaMode: Vec, draws: seq<seq<nat>>, m: nat, eps: real,
                                         rootEps: real, zs: seq<Vec>, k: nat, i: nat)
    requires WellFormed(data, |betaMode|) && |data.X| > 0 && m > 0 && Draws(draws, |data.X|, m)
    requires Noises(zs, |betaMode|) && k < |draws| && k <= |zs| && i < k
    ensures ZvGrads(data, betaMode, draws, m, eps, rootEps, zs, k)[i]
         == ZvGrads(data, betaMode, draws, m, eps, rootEps, zs, i + 1)[i]
    decreases k
  {
    if i < k - 1 {
      ZvGradsKept(data, betaMode, draws, m, eps, rootEps, zs, k, i);
      ZvGradsPrefix(data, betaMode, draws, m, eps, rootEps, zs, k - 1, i);
    } else {
      ZvGradsPrefixBase(data, betaMode, draws, m, eps, rootEps, zs, k, i);
    }
  }

  /** Gradient row i after k updates is the uncorrected estimate of update
      i + 1, taken at beta after i updates over that update's minibatch. */
  lemma ZvGradsAt(data: Data, betaMode: Vec, draws: seq<seq<nat>>, m: nat, eps: real,
                  rootEps: real, zs: seq<Vec>, k: nat, i: nat)
    requires WellFormed(data, |betaMode|) && |data.X| > 0 && m > 0 && Draws(draws, |data.X|, m)
    requires Noises(zs, |betaMode|) && k < |draws| && k <= |zs| && i < k
    ensures ZvGrads(data, betaMode, draws, m, eps, rootEps, zs, k)[i]
         == PostGrad(data, ZvBeta(data, betaMode, draws, m, eps, rootEps, zs, i), draws[i + 1], m)
  {
    ZvGradsPrefix(data, betaMode, draws, m, eps, rootEps, zs, k, i);
    ZvGradsLast(data, betaMode, draws, m, eps, rootEps, zs, i);
  }

  /** beta after updates 0, 1, ..., k of `fit`. */
  function ZvChain(data: Data, betaMode: Vec, draws: seq<seq<nat>>, m: nat, eps: real, rootEps: real,
                   zs: seq<Vec>, k: nat): (r: seq<Vec>)
    requires WellFormed(data, |betaMode|) && |data.X| > 0 && m > 0 && Draws(draws, |data.X|, m)
    requires Noises(zs, |betaMode|) && k < |draws| && k <= |zs|
    ensures |r| == k + 1 && Rect(r, |betaMode|)
  {
    seq(k + 1, i requires 0 <= i <= k => ZvBeta(data, betaMode, draws, m, eps, rootEps, zs, i))
  }

  /** Update k of a `fit` of K updates adds a checkpoint exactly when k is a
      multiple of LossThinning, taken at beta after k - 1 updates. */
  lemma ZvCheckpointsNext(data: Data, betaMode: Vec, draws: seq<seq<nat>>, m: nat, eps: real, rootEps: real,
                          zs: seq<Vec>, XTest: seq<Vec>, K: nat, k: nat)
    requires WellFormed(data, |betaMode|) && |data.X| > 0 && m > 0 && Draws(draws, |data.X|, m)
    requires Noises(zs, |betaMode|) && K < |draws| && K <= |zs| && Rect(XTest, |betaMode|) && 1 <= k <= K
    ensures Checkpoints(ZvChain(data, betaMode, draws, m, eps, rootEps, zs, K), XTest, |betaMode|, k)
         == Checkpoints(ZvChain(data, betaMode, draws, m, eps, rootEps, zs, K), XTest, |betaMode|, k - 1)
          + (if k % LossThinning == 0
             then [Predictions(ZvBeta(data, betaMode, draws, m, eps, rootEps, zs, k - 1), XTest)]
             else [])
  {
    CheckpointsNext(ZvChain(data, betaMode, draws, m, eps, rootEps, zs, K), XTest, |betaMode|, k);
  }

  /** The SGD fitter's update is not part of this model: it is taken as a map
      from the iteration number and the current beta to the next beta. */
  ghost predicate KeepsDim(sgdUpdate: (nat, Vec) -> Vec, d: nat)
  {
    forall k: nat, b: Vec :: |b| == d ==> |sgdUpdate(k, b)| == d
  }

  /** beta after k iterations of `fit_sgd`, started from beta0. */
  function SgdBeta(beta0: Vec, sgdUpdate: (nat, Vec) -> Vec, k: nat): (r: Vec)
    requires KeepsDim(sgdUpdate, |beta0|)
    ensures |r| == |beta0|
    decreases k
  {
    if k == 0 then beta0 else sgdUpdate(k, SgdBeta(beta0, sgdUpdate, k - 1))
  }

  /** The chain rows after iterations 1, ..., k. */
  function SgdBetas(beta0: Vec, sgdUpdate: (nat, Vec) -> Vec, k: nat): (r: seq<Vec>)
    requires KeepsDim(sgdUpdate, |beta0|)
    ensures |r| == k
    ensures forall i :: 0 <= i < k ==> r[i] == SgdBeta(beta0, sgdUpdate, i + 1)
    decreases k
  {
    if k == 0 then [] else SgdBetas(beta0, sgdUpdate, k - 1) + [SgdBeta(beta0, sgdUpdate, k)]
  }

  /** beta after iterations 0, 1, ..., k of `fit_sgd`. */
  function SgdChain(beta0: Vec, sgdUpdate: (nat, Vec) -> Vec, k: nat): (r: seq<Vec>)
    requires KeepsDim(sgdUpdate, |beta0|)
    ensures |r| == k + 1 && Rect(r, |beta0|)
  {
    seq(k + 1, i requires 0 <= i <= k => SgdBeta(beta0, sgdUpdate, i))
  }

  /** Iteration k of a `fit_sgd` of K iterations adds a checkpoint exactly when
      k is a multiple of LossThinning, taken at beta after k - 1 iterations. */
  lemma SgdCheckpointsNext(beta0: Vec, sgdUpdate: (nat, Vec) -> Vec, XTest: seq<Vec>, K: nat, k: nat)
    requires KeepsDim(sgdUpdate, |beta0|) && Rect(XTest, |beta0|) && 1 <= k <= K
    ensures Checkpoints(SgdChain(beta0, sgdUpdate, K), XTest, |beta0|, k)
         == Checkpoints(SgdChain(beta0, sgdUpdate, K), XTest, |beta0|, k - 1)
          + (if k % LossThinning == 0 then [Predictions(SgdBeta(beta0, sgdUpdate, k - 1), XTest)] else [])
  {
    CheckpointsNext(SgdChain(beta0, sgdUpdate, K), XTest, |beta0|, k);
  }

  /** How many chain points `control_variates` compares. */
  const ControlSampleSize: nat := 20

  /** `LogisticRegression` of the control-variate simulations. */
  class LogisticRegression {
    const X: seq<Vec>
    const y: seq<int>
    const XTest: seq<Vec>
    const yTest: seq<int>
    const sigma: real -> real
    const N: nat
    const d: nat
    const testSize: nat
    var beta: Vec
    var betaMode: Vec
    /** `full_post`; the empty vector stands for None before `fit`. */
    var fullPost: Vec
    /** n_iters x d chain and gradients; zero-length arrays stand for None. */
    var sample: array<Vec>
    var gradSample: array<Vec>
    /** One entry per checkpoint: the 0/1 test predictions the log loss scores. */
    var trainingLoss: seq<seq<int>>
    var lossThinning: nat
    var nIters: nat

    ghost predicate Valid()
      reads this, sample, gradSample
    {
      |X| == N && |y| == N && Rect(X, d) && |XTest| == testSize && |yTest| == testSize
      && Rect(XTest, d) && |beta| == d && |betaMode| == d && (|fullPost| == 0 || |fullPost| == d)
      && sample != gradSample && Rect(sample[..], d) && Rect(gradSample[..], d)
    }

    function TrainingData(): Data
    {
      Data(X, y, sigma)
    }

    /** `__init__`; beta0 is the uniform draw `np.random.rand(d)`. */
    constructor (X: seq<Vec>, XTest: seq<Vec>, y: seq<int>, yTest: seq<int>, sigma: real -> real, d: nat, beta0: Vec)
      requires |y| == |X| && Rect(X, d) && |yTest| == |XTest| && Rect(XTest, d)
      requires |beta0| == d && forall j :: 0 <= j < d ==> 0.0 <= beta0[j] < 1.0
      ensures Valid()
      ensures this.X == X && this.XTest == XTest && this.y == y && this.yTest == yTest
      ensures this.sigma == sigma && N == |X| && this.d == d && testSize == |XTest|
      ensures beta == beta0 && betaMode == Zeros(d) && fullPost == []
      ensures trainingLoss == [] && nIters == 0 && sample.Length == 0 && gradSample.Length == 0
    {
      this.X, this.y, this.XTest, this.yTest, this.sigma := X, y, XTest, yTest, sigma;
      N, this.d, testSize := |X|, d, |XTest|;
      beta := beta0;
      betaMode := Zeros(d);
      fullPost := [];
      sample := new Vec[0];
      gradSample := new Vec[0];
      trainingLoss := [];
      lossThinning := 0;
      nIters := 0;
    }

    /** `dlogpost`: accumulate the gradients over the minibatch, scale by the
        integer `N / minibatch_size`, subtract sign(beta). */
    method DLogPost(minibatch: seq<nat>, minibatchSize: nat) returns (dlogbeta: Vec)
      requires Valid() && InRange(minibatch, N) && minibatchSize > 0
      ensures dlogbeta == PostGrad(TrainingData(), beta, minibatch, minibatchSize)
    {
      dlogbeta := Zeros(d);
      for i := 0 to |minibatch|
        invariant dlogbeta == LikGradSum(TrainingData(), beta, minibatch[..i])
      {
        LikGradSumSnoc(TrainingData(), beta, minibatch, i);
        var index := minibatch[i];
        dlogbeta := Add(dlogbeta, Scale((y[index] as real) - sigma(Dot(beta, X[index])), X[index]));
      }
      assert minibatch[..|minibatch|] == minibatch;
      dlogbeta := Scale((N / minibatchSize) as real, dlogbeta);
      dlogbeta := Sub(dlogbeta, SignVec(beta));
    }

    /** `dlogpostcv`: the same estimate at beta and at the mode, over the same
        minibatch, in one loop. */
    method DLogPostCv(minibatch: seq<nat>, minibatchSize: nat) returns (dlogbeta: Vec, dlogbetaopt: Vec)
      requires Valid() && InRange(minibatch, N) && minibatchSize > 0
      ensures dlogbeta == PostGrad(TrainingData(), beta, minibatch, minibatchSize)
      ensures dlogbetaopt == PostGrad(TrainingData(), betaMode, minibatch, minibatchSize)
      ensures beta == betaMode ==> dlogbeta == dlogbetaopt
    {
      ghost var data := TrainingData();
      dlogbeta := Zeros(d);
      dlogbetaopt := Zeros(d);
      for i := 0 to |minibatch|
        invariant dlogbeta == LikGradSum(data, beta, minibatch[..i])
        invariant dlogbetaopt == LikGradSum(data, betaMode, minibatch[..i])
      {
        var index := minibatch[i];
        var g := Scale((y[index] as real) - sigma(Dot(beta, X[index])), X[index]);
        var gopt := Scale((y[index] as real) - sigma(Dot(betaMode, X[index])), X[index]);
        assert g == ObsGrad(data, beta, index) && gopt == ObsGrad(data, betaMode, index);
        LikGradSumSnoc(data, beta, minibatch, i);
        LikGradSumSnoc(data, betaMode, minibatch, i);
        dlogbeta := Add(dlogbeta, g);
        dlogbetaopt := Add(dlogbetaopt, gopt);
      }
      assert minibatch[..|minibatch|] == minibatch;
      dlogbeta := Scale((N / minibatchSize) as real, dlogbeta);
      dlogbetaopt := Scale((N / minibatchSize) as real, dlogbetaopt);
      dlogbeta := Sub(dlogbeta, SignVec(beta));
      dlogbetaopt := Sub(dlogbetaopt, SignVec(betaMode));
    }

    /** `self.sample[i, :] = beta` */
    method RecordSample(i: nat, b: Vec)
      requires i < sample.Length
      modifies sample
      ensures sample[..] == old(sample[..])[i := b]
    {
      sample[i] := b;
    }

    /** `lr.grad_sample[iter - 1, :] = g` */
    method RecordGrad(i: nat, g: Vec)
      requires i < gradSample.Length
      modifies gradSample
      ensures gradSample[..] == old(gradSample[..])[i := g]
    {
      gradSample[i] := g;
    }

    /** `logloss`: the test predictions at the current beta. */
    method LogLoss() returns (yPred: seq<int>)
      requires Valid()
      ensures yPred == Predictions(beta, XTest)
    {
      yPred := Predict(beta, XTest);
    }

    /** `loglossp`: the test predictions at a given parameter vector. */
    method LogLossP(b: Vec) returns (yPred: seq<int>)
      requires Valid() && |b| == d
      ensures yPred == Predictions(b, XTest)
    {
      yPred := Predict(b, XTest);
    }

    /** One pass of the `fit` loop for update k: the checkpoint before every
        10th update, the mode-anchored update, and `self.sample[k - 1, :] = self.beta`. */
    method FitIteration(fitter: ZvSgld, k: nat, draw: seq<nat>, z: Vec, rootEps: real)
      requires Valid() && |fullPost| == d && 1 <= k <= sample.Length && k <= gradSample.Length
      requires fitter.minibatchSize > 0 && IsMinibatch(draw, N, fitter.minibatchSize) && |z| == d
      requires rootEps >= 0.0 && rootEps * rootEps == fitter.epsilon
      modifies this, fitter, sample, gradSample
      ensures Valid() && sample == old(sample) && gradSample == old(gradSample)
      ensures betaMode == old(betaMode) && fullPost == old(fullPost)
      ensures lossThinning == old(lossThinning) && nIters == old(nIters)
      ensures fitter.epsilon == old(fitter.epsilon) && fitter.minibatchSize == old(fitter.minibatchSize)
      ensures fitter.iter == k
      ensures beta == ZvStep(TrainingData(), betaMode, fullPost, old(beta), draw, fitter.minibatchSize,
                             fitter.epsilon, Scale(rootEps, z))
      ensures sample[..] == old(sample[..])[k - 1 := beta]
      ensures gradSample[..] == old(gradSample[..])[k - 1 := PostGrad(TrainingData(), old(beta), draw, fitter.minibatchSize)]
      ensures trainingLoss == old(trainingLoss)
        + (if k % LossThinning == 0 then [Predictions(old(beta), XTest)] else [])
    {
      fitter.iter := k;
      if k % LossThinning == 0 {
        var currentLoss := LogLoss();
        trainingLoss := trainingLoss + [currentLoss];
      }
      fitter.Update(this, draw, z, rootEps);
      RecordSample(k - 1, beta);
    }

    /** Update k of the `fit` loop, stated against the chain of the whole run. */
    method RunIteration(fitter: ZvSgld, stepsize: real, nIters: nat, minibatchSize: nat,
                        draws: seq<seq<nat>>, zs: seq<Vec>, rootEps: real, k: nat)
      requires Valid() && N > 0 && minibatchSize > 0 && rootEps >= 0.0 && rootEps * rootEps == stepsize
      requires fitter.epsilon == stepsize && fitter.minibatchSize == minibatchSize
      requires |draws| == nIters + 1 && Draws(draws, N, minibatchSize) && |zs| == nIters && Noises(zs, d)
      requires sample.Length == nIters && gradSample.Length == nIters && 1 <= k <= nIters
      requires fullPost == ModeFullPost(TrainingData(), betaMode, minibatchSize)
      requires beta == ZvBeta(TrainingData(), betaMode, draws, minibatchSize, stepsize, rootEps, zs, k - 1)
      requires sample[..k - 1] == ZvBetas(TrainingData(), betaMode, draws, minibatchSize, stepsize, rootEps, zs, k - 1)
      requires gradSample[..k - 1] == ZvGrads(TrainingData(), betaMode, draws, minibatchSize, stepsize, rootEps, zs, k - 1)
      requires trainingLoss
            == Checkpoints(ZvChain(TrainingData(), betaMode, draws, minibatchSize, stepsize, rootEps, zs, nIters), XTest, d, k - 1)
      modifies this, fitter, sample, gradSample
      ensures Valid() && sample == old(sample) && gradSample == old(gradSample)
      ensures betaMode == old(betaMode) && fullPost == old(fullPost)
      ensures lossThinning == old(lossThinning) && this.nIters == old(this.nIters)
      ensures fitter.epsilon == stepsize && fitter.minibatchSize == minibatchSize
      ensures beta == ZvBeta(TrainingData(), betaMode, draws, minibatchSize, stepsize, rootEps, zs, k)
      ensures sample[..k] == ZvBetas(TrainingData(), betaMode, draws, minibatchSize, stepsize, rootEps, zs, k)
      ensures gradSample[..k] == ZvGrads(TrainingData(), betaMode, draws, minibatchSize, stepsize, rootEps, zs, k)
      ensures trainingLoss
           == Checkpoints(ZvChain(TrainingData(), betaMode, draws, minibatchSize, stepsize, rootEps, zs, nIters), XTest, d, k)
    {
      ghost var data := TrainingData();
      ZvCheckpointsNext(data, betaMode, draws, minibatchSize, stepsize, rootEps, zs, XTest, nIters, k);
      FitIteration(fitter, k, draws[k], zs[k - 1], rootEps);
      assert sample[..k] == sample[..k - 1] + [beta];
      assert gradSample[..k] == gradSample[..k - 1] + [gradSample[k - 1]];
    }

    /** The loop of `fit`: updates 1, ..., n_iters from the mode. */
    method RunUpdates(fitter: ZvSgld, stepsize: real, nIters: nat, minibatchSize: nat,
                      draws: seq<seq<nat>>, zs: seq<Vec>, rootEps: real)
      requires Valid() && N > 0 && minibatchSize > 0 && rootEps >= 0.0 && rootEps * rootEps == stepsize
      requires fitter.epsilon == stepsize && fitter.minibatchSize == minibatchSize
      requires |draws| == nIters + 1 && Draws(draws, N, minibatchSize) && |zs| == nIters && Noises(zs, d)
      requires sample.Length == nIters && gradSample.Length == nIters && trainingLoss == []
      requires beta == betaMode && fullPost == ModeFullPost(TrainingData(), betaMode, minibatchSize)
      modifies this, fitter, sample, gradSample
      ensures Valid() && sample == old(sample) && gradSample == old(gradSample)
      ensures betaMode == old(betaMode) && fullPost == old(fullPost)
      ensures lossThinning == old(lossThinning) && this.nIters == old(this.nIters)
      ensures beta == ZvBeta(TrainingData(), betaMode, draws, minibatchSize, stepsize, rootEps, zs, nIters)
      ensures sample[..] == ZvBetas(TrainingData(), betaMode, draws, minibatchSize, stepsize, rootEps, zs, nIters)
      ensures gradSample[..] == ZvGrads(TrainingData(), betaMode, draws, minibatchSize, stepsize, rootEps, zs, nIters)
      ensures trainingLoss
           == Checkpoints(ZvChain(TrainingData(), betaMode, draws, minibatchSize, stepsize, rootEps, zs, nIters), XTest, d, nIters)
    {
      ghost var data := TrainingData();
      for k := 1 to nIters + 1
        invariant Valid() && sample == old(sample) && gradSample == old(gradSample)
        invariant betaMode == old(betaMode) && fullPost == old(fullPost)
        invariant lossThinning == old(lossThinning) && this.nIters == old(this.nIters)
        invariant fitter.epsilon == stepsize && fitter.minibatchSize == minibatchSize
        invariant beta == ZvBeta(data, betaMode, draws, minibatchSize, stepsize, rootEps, zs, k - 1)
        invariant sample[..k - 1] == ZvBetas(data, betaMode, draws, minibatchSize, stepsize, rootEps, zs, k - 1)
        invariant gradSample[..k - 1] == ZvGrads(data, betaMode, draws, minibatchSize, stepsize, rootEps, zs, k - 1)
        invariant trainingLoss
               == Checkpoints(ZvChain(data, betaMode, draws, minibatchSize, stepsize, rootEps, zs, nIters), XTest, d, k - 1)
      {
        RunIteration(fitter, stepsize, nIters, minibatchSize, draws, zs, rootEps, k);
      }
      assert sample[..] == sample[..nIters];
      assert gradSample[..] == gradSample[..nIters];
    }

    /** The fitter construction and `full_post` call at the start of `fit`. */
    method StartFitter(stepsize: real, minibatchSize: nat, nIters: nat, draw: seq<nat>) returns (fitter: ZvSgld)
      requires Valid() && minibatchSize > 0 && IsMinibatch(draw, N, minibatchSize)
      modifies this`fullPost
      ensures Valid() && fresh(fitter) && N > 0
      ensures fitter.epsilon == stepsize && fitter.minibatchSize == minibatchSize
      ensures fullPost == ModeFullPost(TrainingData(), betaMode, minibatchSize)
    {
      MinibatchBound(draw, N, minibatchSize);
      fitter := new ZvSgld(this, stepsize, minibatchSize, nIters, draw);
      fitter.FullPost(this);
    }

    /** `fit`: load the mode, start the chain from a copy of it, compute
        `full_post`, then run n_iters mode-anchored updates, storing beta after
        update k in sample row k - 1, the uncorrected gradient of update k in
        grad_sample row k - 1, and the test predictions before every 10th
        update. draws[0] is the minibatch the fitter's constructor samples,
        draws[k] the one update k samples, zs[k - 1] its normal draw. */
    method Fit(stepsize: real, betaMode: Vec, nIters: nat, minibatchSize: nat,
               draws: seq<seq<nat>>, zs: seq<Vec>, rootEps: real)
      requires Valid() && |betaMode| == d && minibatchSize > 0 && rootEps >= 0.0 && rootEps * rootEps == stepsize
      requires |draws| == nIters + 1 && Draws(draws, N, minibatchSize) && |zs| == nIters && Noises(zs, d)
      modifies this
      ensures Valid() && fresh(sample) && fresh(gradSample) && N > 0
      ensures this.betaMode == betaMode && fullPost == ModeFullPost(TrainingData(), betaMode, minibatchSize)
      ensures this.nIters == nIters && lossThinning == LossThinning
      ensures sample.Length == nIters && gradSample.Length == nIters
      ensures sample[..] == ZvBetas(TrainingData(), betaMode, draws, minibatchSize, stepsize, rootEps, zs, nIters)
      ensures gradSample[..] == ZvGrads(TrainingData(), betaMode, draws, minibatchSize, stepsize, rootEps, zs, nIters)
      ensures beta == ZvBeta(TrainingData(), betaMode, draws, minibatchSize, stepsize, rootEps, zs, nIters)
      ensures trainingLoss
           == Checkpoints(ZvChain(TrainingData(), betaMode, draws, minibatchSize, stepsize, rootEps, zs, nIters), XTest, d, nIters)
    {
      this.betaMode := betaMode;
      beta := betaMode;
      trainingLoss := [];
      lossThinning := LossThinning;
      this.nIters := nIters;
      sample := new Vec[nIters](_ => Zeros(d));
      gradSample := new Vec[nIters](_ => Zeros(d));
      var fitter := StartFitter(stepsize, minibatchSize, nIters, draws[0]);
      RunUpdates(fitter, stepsize, nIters, minibatchSize, draws, zs, rootEps);
    }

    /** One pass of the `fit_sgd` loop for iteration k. */
    method SgdIteration(k: nat, sgdUpdate: (nat, Vec) -> Vec)
      requires Valid() && KeepsDim(sgdUpdate, d) && 1 <= k <= sample.Length
      modifies this, sample
      ensures Valid() && sample == old(sample) && gradSample == old(gradSample)
      ensures betaMode == old(betaMode) && fullPost == old(fullPost)
      ensures nIters == old(nIters) && lossThinning == old(lossThinning)
      ensures beta == sgdUpdate(k, old(beta))
      ensures sample[..] == old(sample[..])[k - 1 := beta]
      ensures trainingLoss == old(trainingLoss)
        + (if k % LossThinning == 0 then [Predictions(old(beta), XTest)] else [])
    {
      if k % LossThinning == 0 {
        var currentLoss := LogLoss();
        trainingLoss := trainingLoss + [currentLoss];
      }
      beta := sgdUpdate(k, beta);
      RecordSample(k - 1, beta);
    }

    /** `fit_sgd`: the same loop discipline as `fit`, but beta is not reset: the
        iterations continue from the current beta. The SGD fitter itself is
        not part of this model; its update is the input sgdUpdate. */
    method FitSgd(nIters: nat, sgdUpdate: (nat, Vec) -> Vec)
      requires Valid() && KeepsDim(sgdUpdate, d)
      modifies this
      ensures Valid() && fresh(sample) && fresh(gradSample)
      ensures betaMode == old(betaMode) && fullPost == old(fullPost)
      ensures this.nIters == nIters && lossThinning == LossThinning
      ensures sample.Length == nIters && gradSample.Length == nIters
      ensures sample[..] == SgdBetas(old(beta), sgdUpdate, nIters)
      ensures beta == SgdBeta(old(beta), sgdUpdate, nIters)
      ensures trainingLoss == Checkpoints(SgdChain(old(beta), sgdUpdate, nIters), XTest, d, nIters)
    {
      trainingLoss := [];
      lossThinning := LossThinning;
      this.nIters := nIters;
      sample := new Vec[nIters](_ => Zeros(d));
      gradSample := new Vec[nIters](_ => Zeros(d));
      RunSgd(nIters, sgdUpdate);
    }

    /** The loop of `fit_sgd`: iterations 1, ..., n_iters from the current beta. */
    method RunSgd(nIters: nat, sgdUpdate: (nat, Vec) -> Vec)
      requires Valid() && KeepsDim(sgdUpdate, d) && sample.Length == nIters && trainingLoss == []
      modifies this, sample
      ensures Valid() && sample == old(sample) && gradSample == old(gradSample)
      ensures betaMode == old(betaMode) && fullPost == old(fullPost)
      ensures this.nIters == old(this.nIters) && lossThinning == old(lossThinning)
      ensures sample[..] == SgdBetas(old(beta), sgdUpdate, nIters)
      ensures beta == SgdBeta(old(beta), sgdUpdate, nIters)
      ensures trainingLoss == Checkpoints(SgdChain(old(beta), sgdUpdate, nIters), XTest, d, nIters)
    {
      ghost var beta0 := beta;
      for k := 1 to nIters + 1
        invariant Valid() && sample == old(sample) && gradSample == old(gradSample)
        invariant betaMode == old(betaMode) && fullPost == old(fullPost)
        invariant this.nIters == old(this.nIters) && lossThinning == old(lossThinning)
        invariant beta == SgdBeta(beta0, sgdUpdate, k - 1)
        invariant sample[..k - 1] == SgdBetas(beta0, sgdUpdate, k - 1)
        invariant trainingLoss == Checkpoints(SgdChain(beta0, sgdUpdate, nIters), XTest, d, k - 1)
      {
        SgdCheckpointsNext(beta0, sgdUpdate, XTest, nIters, k);
        SgdIteration(k, sgdUpdate);
        assert sample[..k] == sample[..k - 1] + [beta];
      }
      assert sample[..] == sample[..nIters];
    }

    /** `postprocess`: the zero-variance correction, run by the fitter of the
        last `fit`. */
    method Postprocess(fitter: ZvSgld, P: seq<Vec>, points: seq<nat>) returns (llOld: seq<seq<int>>, llNew: seq<seq<int>>)
      requires Valid() && nIters >= 2 && sample.Length == nIters && gradSample.Length == nIters
      requires |P| == d && Rect(P, d)
      requires |points| == ControlSampleSize && forall k :: 0 <= k < |points| ==> points[k] < nIters
      ensures |llOld| == ControlSampleSize && |llNew| == ControlSampleSize
      ensures forall k :: 0 <= k < ControlSampleSize ==> llOld[k] == Predictions(sample[points[k]], XTest)
      ensures forall k :: 0 <= k < ControlSampleSize ==>
        llNew[k] == Predictions(ZvSample(sample[..], gradSample[..], P, d)[points[k]], XTest)
    {
      llOld, llNew := fitter.ControlVariates(this, P, points);
    }
  }

  /** `ZVSGLD` of the zero-variance package: SGLD anchored at the mode. */
  class ZvSgld {
    var epsilon: real
    var minibatchSize: nat
    var minibatch: seq<nat>
    var iter: int
    var output: array<Vec>

    /** `__init__`: draws the first minibatch (draw) and sets iter to 1. */
    constructor (lr: LogisticRegression, epsilon: real, minibatchSize: nat, nIter: nat, draw: seq<nat>)
      requires IsMinibatch(draw, lr.N, minibatchSize)
      ensures this.epsilon == epsilon && this.minibatchSize == minibatchSize
      ensures minibatch == draw && iter == 1
      ensures fresh(output) && output.Length == nIter && forall i :: 0 <= i < nIter ==> output[i] == Zeros(lr.d)
    {
      this.epsilon := epsilon;
      this.minibatchSize := minibatchSize;
      minibatch := draw;
      iter := 1;
      output := new Vec[nIter](_ => Zeros(lr.d));
    }

    /** `sample_minibatch`: the draw is an input. */
    method SampleMinibatch(lr: LogisticRegression, draw: seq<nat>)
      requires IsMinibatch(draw, lr.N, minibatchSize)
      modifies this`minibatch
      ensures minibatch == draw
    {
      minibatch := draw;
    }

    /** `full_post`: switch the minibatch to all N observations and store
        `minibatch_size / float(N)` times the mode estimate in `lr.full_post`. */
    method FullPost(lr: LogisticRegression)
      requires lr.Valid() && lr.N > 0 && minibatchSize > 0
      modifies this`minibatch, lr`fullPost
      ensures lr.Valid() && minibatch == Range(lr.N)
      ensures lr.fullPost == ModeFullPost(lr.TrainingData(), lr.betaMode, minibatchSize)
    {
      minibatch := Range(lr.N);
      var dlogbeta, dlogbetaopt := lr.DLogPostCv(minibatch, minibatchSize);
      lr.fullPost := Scale((minibatchSize as real) / (lr.N as real), dlogbetaopt);
    }

    /** `update`: resample, store the uncorrected `dlogbeta` in grad_sample row
        iter - 1, and step along `full_post + (dlogbeta - dlogbetaopt)` with noise
        `sqrt(eps) * z`, where rootEps = sqrt(eps). */
    method Update(lr: LogisticRegression, draw: seq<nat>, z: Vec, rootEps: real)
      requires lr.Valid() && |lr.fullPost| == lr.d && 1 <= iter <= lr.gradSample.Length
      requires minibatchSize > 0 && IsMinibatch(draw, lr.N, minibatchSize) && |z| == lr.d
      requires rootEps >= 0.0 && rootEps * rootEps == epsilon
      modifies this`minibatch, lr`beta, lr.gradSample
      ensures lr.Valid() && minibatch == draw
      ensures lr.gradSample[..]
           == old(lr.gradSample[..])[iter - 1 := PostGrad(lr.TrainingData(), old(lr.beta), draw, minibatchSize)]
      ensures lr.beta == ZvStep(lr.TrainingData(), lr.betaMode, lr.fullPost, old(lr.beta), draw, minibatchSize,
                                epsilon, Scale(rootEps, z))
    {
      SampleMinibatch(lr, draw);
      var dlogbeta, dlogbetaopt := lr.DLogPostCv(minibatch, minibatchSize);
      lr.RecordGrad(iter - 1, dlogbeta);
      var eta := Scale(rootEps, z);
      lr.beta := Add(lr.beta, Add(Scale(epsilon / 2.0, Add(lr.fullPost, Sub(dlogbeta, dlogbetaopt))), eta));
    }

    /** `control_variates`: correct the stored chain with the zero-variance
        control variates (precision P of the potential energy given) and
        compare the two chains at the given points. Nothing of lr is modified. */
    method ControlVariates(lr: LogisticRegression, P: seq<Vec>, points: seq<nat>)
      returns (llOld: seq<seq<int>>, llNew: seq<seq<int>>)
      requires lr.Valid() && lr.nIters >= 2 && lr.sample.Length == lr.nIters && lr.gradSample.Length == lr.nIters
      requires |P| == lr.d && Rect(P, lr.d)
      requires |points| == ControlSampleSize && forall k :: 0 <= k < |points| ==> points[k] < lr.nIters
      ensures |llOld| == ControlSampleSize && |llNew| == ControlSampleSize
      ensures forall k :: 0 <= k < ControlSampleSize ==> llOld[k] == Predictions(lr.sample[points[k]], lr.XTest)
      ensures forall k :: 0 <= k < ControlSampleSize ==>
        llNew[k] == Predictions(ZvSample(lr.sample[..], lr.gradSample[..], P, lr.d)[points[k]], lr.XTest)
    {
      var newSample := ZvNewSample(lr.sample[..], lr.gradSample[..], P, lr.d);
      llOld, llNew := ComparePoints(lr, lr.sample[..], newSample, points);
    }

    /** The last loop of `control_variates`: the test predictions of the old
        and the corrected chain at each chosen point. */
    method ComparePoints(lr: LogisticRegression, sample: seq<Vec>, newSample: seq<Vec>, points: seq<nat>)
      returns (llOld: seq<seq<int>>, llNew: seq<seq<int>>)
      requires lr.Valid() && |sample| == |newSample| && Rect(sample, lr.d) && Rect(newSample, lr.d)
      requires forall k :: 0 <= k < |points| ==> points[k] < |sample|
      ensures |llOld| == |points| && |llNew| == |points|
      ensures forall k :: 0 <= k < |points| ==> llOld[k] == Predictions(sample[points[k]], lr.XTest)
      ensures forall k :: 0 <= k < |points| ==> llNew[k] == Predictions(newSample[points[k]], lr.XTest)
    {
      var llold := new seq<int>[|points|](_ => []);
      var llnew := new seq<int>[|points|](_ => []);
      for i := 0 to |points|
        invariant forall k :: 0 <= k < i ==> llold[k] == Predictions(sample[points[k]], lr.XTest)
        invariant forall k :: 0 <= k < i ==> llnew[k] == Predictions(newSample[points[k]], lr.XTest)
      {
        var index := points[i];
        llold[i] := lr.LogLossP(sample[index]);
        llnew[i] := lr.LogLossP(newSample[index]);
      }
      llOld, llNew := llold[..], llnew[..];
    }
  }
}
