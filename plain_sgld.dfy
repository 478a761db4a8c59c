/** Plain SGLD: the `ZVSGLD` fitter of the control-variate simulations' plain
    logistic-regression package. Its step follows the uncorrected minibatch
    estimate `dlogpost`; the model drives it with the `LogisticRegression`
    class of CvSampler, whose `dlogpost` has the interface it calls. */
module PlainSgld {
  import opened Vectors
  import opened Indices
  import opened Logistic
  import CvSampler

  /** `update`: a Langevin step along `dlogpost` at beta over the minibatch mb. */
  function PlainStep(data: Data, beta: Vec, mb: seq<nat>, m: nat, eps: real, noise: Vec): (r: Vec)
    requires WellFormed(data, |beta|) && InRange(mb, |data.X|) && m > 0 && |noise| == |beta|
    ensures |r| == |beta|
  {
    LangevinStep(beta, eps, CvSampler.PostGrad(data, beta, mb, m), noise)
  }

  /** With zero noise the step is gradient ascent of size eps / 2 on the
      minibatch estimate, and each coordinate moves with the sign of its entry. */
  lemma PlainStepNoiseless(data: Data, beta: Vec, mb: seq<nat>, m: nat, eps: real)
    requires WellFormed(data, |beta|) && InRange(mb, |data.X|) && m > 0 && eps > 0.0
    ensures PlainStep(data, beta, mb, m, eps, Zeros(|beta|))
         == Add(beta, Scale(eps / 2.0, CvSampler.PostGrad(data, beta, mb, m)))
    ensures forall j :: 0 <= j < |beta| ==>
      Sign(PlainStep(data, beta, mb, m, eps, Zeros(|beta|))[j] - beta[j])
        == Sign(CvSampler.PostGrad(data, beta, mb, m)[j])
  {
    NoiselessStepAscends(beta, eps, CvSampler.PostGrad(data, beta, mb, m));
  }

  /** With m = N the plain step follows the exact full-batch log-posterior
      gradient, whatever order the minibatch lists the observations in. */
  lemma PlainStepFullBatch(data: Data, beta: Vec, mb: seq<nat>, eps: real, noise: Vec)
    requires WellFormed(data, |beta|) && |data.X| > 0 && IsMinibatch(mb, |data.X|, |data.X|)
    requires |noise| == |beta|
    ensures PlainStep(data, beta, mb, |data.X|, eps, noise)
         == LangevinStep(beta, eps, Sub(FullGrad(data, beta), SignVec(beta)), noise)
  {
    CvSampler.PostGradFullBatch(data, beta, mb);
  }

  /** With m = N the mode-anchored step and the plain step coincide: the
      control variate changes nothing once the minibatch is the whole data set. */
  lemma ZvStepMatchesPlainAtFullBatch(data: Data, betaMode: Vec, beta: Vec, mb: seq<nat>, eps: real, noise: Vec)
    requires WellFormed(data, |beta|) && |betaMode| == |beta| && |data.X| > 0
    requires IsMinibatch(mb, |data.X|, |data.X|) && |noise| == |beta|
    ensures CvSampler.ZvStep(data, betaMode, CvSampler.ModeFullPost(data, betaMode, |data.X|), beta, mb,
                             |data.X|, eps, noise)
         == PlainStep(data, beta, mb, |data.X|, eps, noise)
  {
    CvSampler.ZvDriftFullBatch(data, betaMode, beta, mb);
    CvSampler.PostGradFullBatch(data, beta, mb);
  }

  class ZvSgld {
    var epsilon: real
    var minibatchSize: nat
    var minibatch: seq<nat>
    var iter: int
    var output: array<Vec>

    /** `__init__`: draws the first minibatch (draw) and sets iter to 1. */
    constructor (lr: CvSampler.LogisticRegression, epsilon: real, minibatchSize: nat, nIter: nat, draw: seq<nat>)
      requires IsMinibatch(draw, lr.N, minibatchSize)
      ensures this.epsilon == epsilon && this.minibatchSize == minibatchSize
      ensures minibatch == draw && iter == 1
      ensures fresh(output) && output.Length == nIter && forall i :: 0 <= i < nIter ==> output[i] == Zeros(lr.d)
    {
      this.epsilon := epsilon;
      this.minibatchSize := minibatchSize;
      minibatch := draw;
      iter := 1;
      output := new Vec[nIter](_ => Zeros(lr.d));
    }

    /** `sample_minibatch`: minibatch_size distinct indices in [0, N); the draw
        is an input. */
    method SampleMinibatch(lr: CvSampler.LogisticRegression, draw: seq<nat>)
      requires IsMinibatch(draw, lr.N, minibatchSize)
      modifies this`minibatch
      ensures minibatch == draw
    {
      minibatch := draw;
    }

    /** `update`: resample, store `dlogpost` at the current beta in grad_sample
        row iter - 1, and step along that same gradient with noise
        `sqrt(eps) * z`, where rootEps = sqrt(eps). Only the minibatch, beta and
        that one row change. */
    method Update(lr: CvSampler.LogisticRegression, draw: seq<nat>, z: Vec, rootEps: real)
      requires lr.Valid() && 1 <= iter <= lr.gradSample.Length
      requires minibatchSize > 0 && IsMinibatch(draw, lr.N, minibatchSize) && |z| == lr.d
      requires rootEps >= 0.0 && rootEps * rootEps == epsilon
      modifies this`minibatch, lr`beta, lr.gradSample
      ensures lr.Valid() && minibatch == draw
      ensures lr.gradSample[..]
           == old(lr.gradSample[..])[iter - 1 := CvSampler.PostGrad(lr.TrainingData(), old(lr.beta), draw, minibatchSize)]
      ensures lr.beta == PlainStep(lr.TrainingData(), old(lr.beta), draw, minibatchSize, epsilon, Scale(rootEps, z))
      ensures lr.beta == LangevinStep(old(lr.beta), epsilon, lr.gradSample[iter - 1], Scale(rootEps, z))
    {
      SampleMinibatch(lr, draw);
      var dlogbeta := lr.DLogPost(minibatch, minibatchSize);
      lr.RecordGrad(iter - 1, dlogbeta);
      var eta := Scale(rootEps, z);
      lr.beta := Add(lr.beta, Add(Scale(epsilon / 2.0, dlogbeta), eta));
    }
  }
}
