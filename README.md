# Control-variate SGLD samplers for Bayesian logistic regression

This project models the bookkeeping of the stochastic-gradient Langevin
samplers of control-variates-sgld, and of the zero-variance (ZV)
postprocessor that corrects their chains. The parts modelled are:

- **SAGA** (`saga.py` and the `LogisticRegression` class of the SAGA
  simulations). A gradient table `g_alpha_i` holds one row per observation,
  and `g_alpha` holds its running column sum. Each update draws a minibatch and
  forms the estimate `g_alpha + (N/m)(S_new - S_old) - sign(beta)`. It then
  moves the sum by `S_new - S_old`, overwrites the minibatch rows and takes a
  Langevin step. `dlogdens` always loops over the current minibatch, so the
  table built in the constructor has the minibatch's gradients in its first
  m rows and zeros in the rest.
- **Mode-anchored SGLD** (the `ZVSGLD` class of the zero-variance package, and
  the `LogisticRegression` class of the control-variate simulations that
  provides its `full_post` / `dlogpostcv` interface):
  - `dlogpost` scales the minibatch gradient sum by the Python 2 integer
    quotient `N / minibatch_size`;
  - `full_post` stores `m/N` times that estimate at the mode over all N
    observations;
  - every update steps along `full_post + dlogbeta - dlogbetaopt` and
    stores the uncorrected `dlogbeta`.
- **Plain SGLD** (the `ZVSGLD` class of the control-variate simulations'
  plain package). It steps along `dlogpost` alone.
- **The fit loops** (`fit`, `fit_sgd`). They fill a preallocated
  `n_iters x d` chain row by row and record the test predictions before
  every 10th update.
- **ZV postprocessing** (`control_variates`):
  - the potential energy is `PE = -1/2 grad_sample`;
  - the (n - 1)-divisor cross-covariance of each chain column with PE gives
    `a_j = -P cov_j`;
  - `new_sample[i, j] = sample[i, j] + a_j . PE[i, :]`;
  - the old and new chains are then compared at 20 points.

Reals stand for floats. The sigmoid is an uninterpreted function carried in
the data. Every random draw is an input: a minibatch satisfies `IsMinibatch`
(m distinct indices in [0, N)), and a noise vector has length d.

Files and modules:

- `vectors.dfy` (`Vectors`): vector arithmetic, column sums and their lemmas.
- `indices.dfy` (`Indices`): minibatches as draws without replacement, with the
  pigeonhole facts and the fact that a permutation keeps a column sum.
- `logistic.dfy` (`Logistic`): data, per-observation gradients, the Langevin
  step, the 0/1 test predictions and the loss-checkpoint schedule.
- `saga.dfy` (`SagaSampler`): the SAGA fitter and its `LogisticRegression`.
- `zero_variance.dfy` (`ZeroVariance`): the ZV correction.
- `cv_sampler.dfy` (`CvSampler`): the mode-anchored fitter and its
  `LogisticRegression`.
- `plain_sgld.dfy` (`PlainSgld`): the plain SGLD fitter.

Where the documentation and the code disagree, the model follows the code:

- `dlogpost` and `dlogpostcv` scale by the integer quotient floor(N / m), not by
  the real ratio N / m. `CvSampler.IntegerScale` relates the two.
- The initial SAGA table is not the N per-observation gradients. `dlogdens`
  ignores `indices` except for the row count, so row k < m holds the gradient
  of `minibatch[k]` and the rows from m on are zero.
- The SAGA update draws its noise with `scale = epsilon`. Both `ZVSGLD` classes
  use `sqrt(epsilon) * z`.
- `control_variates` does not modify `lr.sample`, although its docstring says it
  does. The corrected chain is a fresh array.
- `training_loss` entries are `[log_loss, elapsed_time]` pairs. The model
  records, for each checkpoint, the 0/1 prediction vector that `log_loss`
  scores.

## Model

| member | source | states |
|---|---|---|
| Indices.MinibatchBound | cv/sagaSimulations/logistic_regression/logistic_regression/logistic_regression/saga.py:91-93 | m distinct indices in [0, N) exist only when m <= N: `minibatch_size > N` is the error the draw raises |
| Indices.CoversRange | cv/sgldcvSimulations/logistic_regression/logistic_regression_cv/logistic_regression/logistic_regression.py:173 | a minibatch of size N names every observation |
| Indices.SumColGatherPermutation | cv/sagaSimulations/logistic_regression/logistic_regression/logistic_regression/saga.py:61 | summing the table rows named by a permutation of all indices gives the table's column sum |
| Logistic.LikGradSumSnoc | cv/sgldcvSimulations/logistic_regression/logistic_regression_cv/logistic_regression/logistic_regression.py:173-179 | one pass of the accumulation loop adds exactly the next observation's gradient to the running sum |
| Logistic.LikGradSumFullBatch | cv/sgldcvSimulations/logistic_regression/logistic_regression_cv/logistic_regression/logistic_regression.py:173-179 | over a minibatch of size N the summed gradient is the full-batch gradient, whatever the order |
| Logistic.NoiselessStepAscends | cv/sgldcvSimulations/logistic_regression/logistic_regression/logistic_regression/zvsgld.py:60-61 | with zero noise the Langevin step is gradient ascent of size eps/2, and every coordinate moves with the sign of its gradient entry |
| Logistic.Predict | cv/sgldcvSimulations/logistic_regression/logistic_regression_cv/logistic_regression/logistic_regression.py:140-143 | test row i is predicted 1 exactly when beta . x_i >= 0, and 0 exactly when it is negative |
| Logistic.ZeroBetaPredictsOne | cv/sagaSimulations/logistic_regression/logistic_regression/logistic_regression/logistic_regression.py:47 | the all-zero starting beta predicts 1 for every test row |
| Logistic.PredictionsScaleInvariant | cv/sagaSimulations/logistic_regression/logistic_regression/logistic_regression/logistic_regression.py:109-112 | scaling beta by a positive factor changes no prediction |
| Logistic.Checkpoints | cv/sagaSimulations/logistic_regression/logistic_regression/logistic_regression/logistic_regression.py:68-88 | after k updates there are exactly floor(k / 10) recorded checkpoints |
| Logistic.CheckpointsNext | cv/sagaSimulations/logistic_regression/logistic_regression/logistic_regression/logistic_regression.py:81-89 | update k appends one checkpoint, taken at the state before the update, exactly when k is a multiple of 10, and otherwise leaves the record unchanged |
| SagaSampler.ScatterAt | cv/sagaSimulations/logistic_regression/logistic_regression/logistic_regression/saga.py:67 | with distinct indices, row idx[k] receives rows[k] and every other row is kept |
| SagaSampler.ScatterSumCol | cv/sagaSimulations/logistic_regression/logistic_regression/logistic_regression/saga.py:61-67 | with distinct indices, overwriting rows moves each column sum by (new rows) - (old rows) |
| SagaSampler.SagaInit | cv/sagaSimulations/logistic_regression/logistic_regression/logistic_regression/saga.py:41-42 | the constructed state satisfies the invariant `g_alpha` = column sum of `g_alpha_i` |
| SagaSampler.SagaStepKeepsSum | cv/sagaSimulations/logistic_regression/logistic_regression/logistic_regression/saga.py:61-93 | every update with distinct minibatch indices keeps `g_alpha` equal to the column sum of the table |
| SagaSampler.SagaStepRows | cv/sagaSimulations/logistic_regression/logistic_regression/logistic_regression/saga.py:58-67 | an update overwrites exactly the minibatch rows, each with the fresh gradient of its observation; all other rows are unchanged |
| SagaSampler.SagaCachedFresh | cv/sagaSimulations/logistic_regression/logistic_regression/logistic_regression/saga.py:66-87 | when the cached minibatch rows already hold the fresh gradients, the sum is unchanged and the estimate is g_alpha - sign(beta) |
| SagaSampler.SagaFullBatch | cv/sagaSimulations/logistic_regression/logistic_regression/logistic_regression/saga.py:61-87 | with m = N and the invariant, the estimate is the full-batch gradient minus sign(beta), whatever the table held |
| SagaSampler.SagaAfterConsistent | cv/sagaSimulations/logistic_regression/logistic_regression/logistic_regression/saga.py:45-71 | the sum invariant holds after any number of updates |
| SagaSampler.SagaCheckpointsNext | cv/sagaSimulations/logistic_regression/logistic_regression/logistic_regression/logistic_regression.py:83-89 | in a SAGA run, update k adds the checkpoint at the parameters before it exactly when 10 divides k |
| SagaSampler.LogisticRegression.constructor | cv/sagaSimulations/logistic_regression/logistic_regression/logistic_regression/logistic_regression.py:23-53 | stores the data and sizes, beta = 0, an empty loss record, and no chain yet |
| SagaSampler.LogisticRegression.DLogDens | cv/sagaSimulations/logistic_regression/logistic_regression/logistic_regression/logistic_regression.py:116-139 | a falsy `indices` means the minibatch; the result has len(indices) rows, row k < m is the gradient of minibatch[k], and the later rows are zero |
| SagaSampler.LogisticRegression.FillGrads | cv/sagaSimulations/logistic_regression/logistic_regression/logistic_regression/logistic_regression.py:132-138 | the loop writes the gradient of minibatch[k] into row k and leaves the later rows as they were |
| SagaSampler.LogisticRegression.RecordSample | cv/sagaSimulations/logistic_regression/logistic_regression/logistic_regression/logistic_regression.py:90 | only chain row i changes, to beta |
| SagaSampler.LogisticRegression.LogLoss | cv/sagaSimulations/logistic_regression/logistic_regression/logistic_regression/logistic_regression.py:93-99 | the scored predictions are the thresholded test predictions at the current beta |
| SagaSampler.LogisticRegression.LogLossP | cv/sagaSimulations/logistic_regression/logistic_regression/logistic_regression/logistic_regression.py:102-113 | the scored predictions are the thresholded test predictions at the given beta |
| SagaSampler.LogisticRegression.FitIteration | cv/sagaSimulations/logistic_regression/logistic_regression/logistic_regression/logistic_regression.py:81-90 | one loop pass: a checkpoint at the old beta when 10 divides k, one SAGA step, and chain row k - 1 set to the new beta |
| SagaSampler.LogisticRegression.RunIteration | cv/sagaSimulations/logistic_regression/logistic_regression/logistic_regression/logistic_regression.py:81-90 | pass k keeps the fitter state, chain prefix and checkpoints in step with the functions that define the whole run |
| SagaSampler.LogisticRegression.RunUpdates | cv/sagaSimulations/logistic_regression/logistic_regression/logistic_regression/logistic_regression.py:81-90 | the loop leaves chain row k - 1 = beta after update k for every k, the final beta, grad_sample untouched, and all checkpoints |
| SagaSampler.LogisticRegression.Fit | cv/sagaSimulations/logistic_regression/logistic_regression/logistic_regression/logistic_regression.py:56-90 | fresh n_iters x d arrays; chain row k - 1 holds beta after update k; grad_sample stays all zero; the loss record is reset and holds exactly the floor(n_iters / 10) checkpoints |
| SagaSampler.Saga.constructor | cv/sagaSimulations/logistic_regression/logistic_regression/logistic_regression/saga.py:23-42 | first minibatch drawn, iter = 1, a zero output array, and the table and sum of SagaInit, so the invariant holds |
| SagaSampler.Saga.SampleMinibatch | cv/sagaSimulations/logistic_regression/logistic_regression/logistic_regression/saga.py:91-93 | the minibatch becomes the draw of m distinct indices in [0, N) |
| SagaSampler.Saga.WriteRows | cv/sagaSimulations/logistic_regression/logistic_regression/logistic_regression/saga.py:67 | the row-wise fancy assignment leaves the table Scatter describes |
| SagaSampler.Saga.Update | cv/sagaSimulations/logistic_regression/logistic_regression/logistic_regression/saga.py:45-88 | performs the SagaStep from the old state, keeps the invariant, and leaves epsilon, minibatch_size, iter and output unchanged |
| ZeroVariance.ColumnMeansOfCopies | zv/logistic_regression/logistic_regression/logistic_regression/zvsgld.py:87-88 | the column means of n copies of one row are that row |
| ZeroVariance.CovTerm | zv/logistic_regression/logistic_regression/logistic_regression/zvsgld.py:104-105 | a term whose chain deviation is zero contributes nothing |
| ZeroVariance.CoefficientsOfZeroCovariance | zv/logistic_regression/logistic_regression/logistic_regression/zvsgld.py:107 | a zero covariance vector gives zero coefficients, whatever the precision matrix |
| ZeroVariance.ZvNewSample | zv/logistic_regression/logistic_regression/logistic_regression/zvsgld.py:86-109 | new_sample[i][j] = sample[i][j] + (-P cov_j) . PE[i] for every i and j, with cov_j the (n - 1)-divisor cross-covariance |
| ZeroVariance.AccumulateCov | zv/logistic_regression/logistic_regression/logistic_regression/zvsgld.py:101-105 | the inner loop yields the sum of all n covariance terms of column j |
| ZeroVariance.WriteColumn | zv/logistic_regression/logistic_regression/logistic_regression/zvsgld.py:108-109 | only entry j of each row changes, to sample[i][j] + a . PE[i] |
| ZeroVariance.ZeroGradientsKeepChain | zv/logistic_regression/logistic_regression/logistic_regression/zvsgld.py:86-109 | all-zero stored gradients leave the corrected chain equal to the chain |
| ZeroVariance.ConstantColumnKept | zv/logistic_regression/logistic_regression/logistic_regression/zvsgld.py:87-109 | a constant chain column has zero covariance and comes back unchanged |
| ZeroVariance.ZvColumnSum | zv/logistic_regression/logistic_regression/logistic_regression/zvsgld.py:108-109 | the corrected column sums to the old sum plus a_j . (column sums of PE) |
| ZeroVariance.ZvMeanShift | zv/logistic_regression/logistic_regression/logistic_regression/zvsgld.py:86-109 | the corrected column mean is the old mean plus a_j . mean(PE), so the estimate moves only by the control variate's sample mean |
| CvSampler.IntegerScale | cv/sgldcvSimulations/logistic_regression/logistic_regression_cv/logistic_regression/logistic_regression.py:181 | the integer scale floor(N/m) is at most N/m, and equals it exactly when m divides N |
| CvSampler.PostGradFullBatch | cv/sgldcvSimulations/logistic_regression/logistic_regression_cv/logistic_regression/logistic_regression.py:171-184 | with m = N the estimate is the full-batch log-posterior gradient |
| CvSampler.PostGradExactScale | cv/sgldcvSimulations/logistic_regression/logistic_regression_cv/logistic_regression/logistic_regression.py:181 | when m divides N the estimate uses the exact ratio N/m, as the SAGA estimator does |
| CvSampler.FullPostExact | zv/logistic_regression/logistic_regression/logistic_regression/zvsgld.py:64-67 | when m divides N, `full_post` is the full-batch likelihood gradient at the mode minus m/N of sign(mode) |
| CvSampler.ZvDriftAtMode | zv/logistic_regression/logistic_regression/logistic_regression/zvsgld.py:61 | at the mode the two minibatch estimates cancel and the drift is `full_post` |
| CvSampler.ZvDriftFullBatch | zv/logistic_regression/logistic_regression/logistic_regression/zvsgld.py:61-67 | with m = N the drift is the exact full-batch log-posterior gradient at beta |
| CvSampler.ZvBetasAt | cv/sgldcvSimulations/logistic_regression/logistic_regression_cv/logistic_regression/logistic_regression.py:90-99 | chain row i after k updates is beta after update i + 1: later updates never rewrite an earlier row |
| CvSampler.ZvGradsPrefix | zv/logistic_regression/logistic_regression/logistic_regression/zvsgld.py:56-57 | later updates never rewrite the gradient row an earlier update stored |
| CvSampler.ZvGradsAt | zv/logistic_regression/logistic_regression/logistic_regression/zvsgld.py:55-57 | gradient row i after k updates is the uncorrected estimate `dlogbeta` of update i + 1, at beta after i updates and over that update's minibatch |
| CvSampler.SgdBetas | cv/sgldcvSimulations/logistic_regression/logistic_regression_cv/logistic_regression/logistic_regression.py:126-135 | after k iterations there are k chain rows, and row i is beta after iteration i + 1 |
| CvSampler.ZvCheckpointsNext | cv/sgldcvSimulations/logistic_regression/logistic_regression_cv/logistic_regression/logistic_regression.py:90-98 | in a mode-anchored run, update k adds the checkpoint at beta before it exactly when 10 divides k |
| CvSampler.SgdCheckpointsNext | cv/sgldcvSimulations/logistic_regression/logistic_regression_cv/logistic_regression/logistic_regression.py:126-134 | in an SGD run, iteration k adds the checkpoint at beta before it exactly when 10 divides k |
| CvSampler.LogisticRegression.constructor | cv/sgldcvSimulations/logistic_regression/logistic_regression_cv/logistic_regression/logistic_regression.py:24-57 | stores the data and sizes, beta = the uniform draw, beta_mode = 0, no full_post, no chain, an empty loss record |
| CvSampler.LogisticRegression.DLogPost | cv/sgldcvSimulations/logistic_regression/logistic_regression_cv/logistic_regression/logistic_regression.py:161-184 | the loop and scaling compute floor(N/m) times the minibatch gradient sum minus sign(beta) |
| CvSampler.LogisticRegression.DLogPostCv | cv/sgldcvSimulations/logistic_regression/logistic_regression_cv/logistic_regression/logistic_regression.py:187-214 | the same estimator at beta and at the mode over one minibatch; equal when beta = beta_mode |
| CvSampler.LogisticRegression.RecordSample | cv/sgldcvSimulations/logistic_regression/logistic_regression_cv/logistic_regression/logistic_regression.py:99 | only chain row i changes, to beta |
| CvSampler.LogisticRegression.RecordGrad | zv/logistic_regression/logistic_regression/logistic_regression/zvsgld.py:57 | only gradient row i changes |
| CvSampler.LogisticRegression.LogLoss | cv/sgldcvSimulations/logistic_regression/logistic_regression_cv/logistic_regression/logistic_regression.py:138-144 | the scored predictions are the thresholded test predictions at the current beta |
| CvSampler.LogisticRegression.LogLossP | cv/sgldcvSimulations/logistic_regression/logistic_regression_cv/logistic_regression/logistic_regression.py:147-158 | the scored predictions are the thresholded test predictions at the given beta |
| CvSampler.LogisticRegression.FitIteration | cv/sgldcvSimulations/logistic_regression/logistic_regression_cv/logistic_regression/logistic_regression.py:90-99 | one loop pass: a checkpoint at the old beta when 10 divides k, one mode-anchored step, the uncorrected gradient in row k - 1, and chain row k - 1 set to the new beta |
| CvSampler.LogisticRegression.RunIteration | cv/sgldcvSimulations/logistic_regression/logistic_regression_cv/logistic_regression/logistic_regression.py:90-99 | pass k keeps beta, the chain and gradient prefixes, and the checkpoints in step with the functions that define the whole run |
| CvSampler.LogisticRegression.RunUpdates | cv/sgldcvSimulations/logistic_regression/logistic_regression_cv/logistic_regression/logistic_regression.py:90-99 | after the loop every chain row k - 1 is beta after update k, every gradient row the estimate update k used, and the checkpoints are complete |
| CvSampler.LogisticRegression.StartFitter | cv/sgldcvSimulations/logistic_regression/logistic_regression_cv/logistic_regression/logistic_regression.py:84-86 | a fresh fitter with the run's step size and minibatch size, and `full_post` computed at the mode |
| CvSampler.LogisticRegression.Fit | cv/sgldcvSimulations/logistic_regression/logistic_regression_cv/logistic_regression/logistic_regression.py:60-99 | beta_mode is kept as given and the chain starts from it; fresh n_iters x d arrays, every row written as ZvBetas and ZvGrads define them; exactly floor(n_iters / 10) checkpoints |
| CvSampler.LogisticRegression.SgdIteration | cv/sgldcvSimulations/logistic_regression/logistic_regression_cv/logistic_regression/logistic_regression.py:126-135 | one loop pass: a checkpoint at the old beta when 10 divides k, one update, chain row k - 1 set |
| CvSampler.LogisticRegression.FitSgd | cv/sgldcvSimulations/logistic_regression/logistic_regression_cv/logistic_regression/logistic_regression.py:102-135 | continues from the current beta (not reset); chain row k - 1 is beta after iteration k; exactly floor(n_iters / 10) checkpoints |
| CvSampler.LogisticRegression.RunSgd | cv/sgldcvSimulations/logistic_regression/logistic_regression_cv/logistic_regression/logistic_regression.py:126-135 | the loop leaves every chain row, the final beta and the checkpoints as SgdBetas, SgdBeta and SgdChain define them |
| CvSampler.LogisticRegression.Postprocess | cv/sgldcvSimulations/logistic_regression/logistic_regression_cv/logistic_regression/logistic_regression.py:217-218 | returns the old and corrected chains' predictions at the 20 chosen points |
| CvSampler.ZvSgld.constructor | zv/logistic_regression/logistic_regression/logistic_regression/zvsgld.py:24-40 | first minibatch drawn, iter = 1, a fresh zero output array |
| CvSampler.ZvSgld.SampleMinibatch | zv/logistic_regression/logistic_regression/logistic_regression/zvsgld.py:69-71 | the minibatch becomes the draw of m distinct indices in [0, N) |
| CvSampler.ZvSgld.FullPost | zv/logistic_regression/logistic_regression/logistic_regression/zvsgld.py:64-67 | the minibatch becomes all of 0..N-1, and `full_post` becomes m/N times the mode estimate |
| CvSampler.ZvSgld.Update | zv/logistic_regression/logistic_regression/logistic_regression/zvsgld.py:43-61 | only gradient row iter - 1 changes, to the uncorrected estimate; beta takes one step along full_post + dlogbeta - dlogbetaopt with noise sqrt(eps) z |
| CvSampler.ZvSgld.ControlVariates | zv/logistic_regression/logistic_regression/logistic_regression/zvsgld.py:74-123 | two length-20 results; entry k of both is taken at the same chain index, on the old and on the corrected chain; lr is not modified |
| CvSampler.ZvSgld.ComparePoints | zv/logistic_regression/logistic_regression/logistic_regression/zvsgld.py:114-121 | entry i of each result is the predictions at chain index points[i] of the old and the new chain |
| PlainSgld.PlainStepNoiseless | cv/sgldcvSimulations/logistic_regression/logistic_regression/logistic_regression/zvsgld.py:57-61 | with z = 0 the plain step is gradient ascent of size eps/2 along the stored gradient, coordinate by coordinate in its sign |
| PlainSgld.PlainStepFullBatch | cv/sgldcvSimulations/logistic_regression/logistic_regression/logistic_regression/zvsgld.py:56-61 | with m = N the plain step follows the exact full-batch log-posterior gradient |
| PlainSgld.ZvStepMatchesPlainAtFullBatch | cv/sgldcvSimulations/logistic_regression/logistic_regression/logistic_regression/zvsgld.py:56-61 | with m = N the mode-anchored step and the plain step coincide |
| PlainSgld.ZvSgld.constructor | cv/sgldcvSimulations/logistic_regression/logistic_regression/logistic_regression/zvsgld.py:24-40 | first minibatch drawn, iter = 1, a fresh zero output array |
| PlainSgld.ZvSgld.SampleMinibatch | cv/sgldcvSimulations/logistic_regression/logistic_regression/logistic_regression/zvsgld.py:64-66 | the minibatch becomes the draw of m distinct indices in [0, N) |
| PlainSgld.ZvSgld.Update | cv/sgldcvSimulations/logistic_regression/logistic_regression/logistic_regression/zvsgld.py:43-61 | resamples first; only gradient row iter - 1 changes, to `dlogpost` at the old beta; beta steps along that same stored gradient with noise sqrt(eps) z |

## Left out

- Floating point: all arithmetic is over reals. Overflow trapping (`np.seterr`) is not modelled.
- The sigmoid is an uninterpreted function `sigma` carried in the data, not `1 / (1 + exp(-z))`.
- Randomness: minibatch draws, normal draws, the uniform initial beta and the 20 comparison points are inputs. `sqrt(epsilon)` is an input `rootEps` with `rootEps * rootEps == epsilon`. The SAGA noise vector is taken already scaled.
- `shrinkage_precision` (scikit-learn's LedoitWolf): the precision matrix P is an input. Its failure modes are not modelled.
- `log_loss` (scikit-learn) and the elapsed times: each checkpoint records the 0/1 prediction vector that would be scored.
- Console output (`print`, `sys.stdout`) and `Stopwatch`.
- Driver scripts (data download, parsing, splitting, saving).
- `sgd.py` is not part of this model. `FitSgd` takes the SGD fitter's update as a function input.
- The `LogisticRegression` class paired with the plain package's `ZVSGLD` is not part of this model. `PlainSgld.ZvSgld` runs against `CvSampler.LogisticRegression`, which provides the `dlogpost` it calls.
- `self.fitter` is not kept as a field. The fitter is a local of `Fit`, and `Postprocess` takes it as an argument.
- Python's `None` for `sample`, `grad_sample` and `full_post` before `fit` is modelled as zero-length arrays and an empty vector.
- Aliasing of numpy arrays is not modelled: vectors are values, so `beta_mode.copy()` and `beta_mode` are the same value.
- CvSampler.ZvSgld.ControlVariates requires n_iters >= 2: with one iteration the covariance divides by zero.
- SagaSampler.LogisticRegression.DLogDens requires the minibatch to fit in the allocated rows: with fewer `indices` than minibatch entries the code raises an index error.
- SagaSampler.Saga.constructor requires a draw of m distinct indices in [0, N): with m > N the code's draw raises an error before any state is built.
- SagaSampler.Saga.Update requires minibatch_size > 0: with m = 0 the correction N / m divides by zero (saga.py:84).
- SagaSampler.LogisticRegression.Fit requires minibatch_size > 0: with m = 0 the first update divides by zero; with m = 0 and n_iters = 0 the code returns normally, a run the model does not cover. FitIteration, RunIteration and RunUpdates carry the same requirement, and so do the SAGA step functions (SagaEstimate, SagaStep, SagaAfter and the lemmas about them).
- CvSampler.LogisticRegression.DLogPost requires minibatch_size > 0: with m = 0 the scale N / m divides by zero (logistic_regression.py:181 of the control-variate package). So does PostGrad.
- CvSampler.LogisticRegression.DLogPostCv requires minibatch_size > 0: with m = 0 the scale divides by zero (logistic_regression.py:209-210 of the control-variate package).
- CvSampler.LogisticRegression.StartFitter requires minibatch_size > 0: with m = 0 `full_post` calls `dlogpostcv`, which divides by zero.
- CvSampler.LogisticRegression.Fit requires minibatch_size > 0: with m = 0 the code fails with the division by zero in `full_post` before any update. FitIteration, RunIteration, RunUpdates and the chain functions ZvBeta, ZvBetas, ZvGrads and ZvChain carry the same requirement.
- CvSampler.ZvSgld.FullPost requires minibatch_size > 0: with m = 0 its `dlogpostcv` call divides by zero.
- CvSampler.ZvSgld.Update requires minibatch_size > 0: with m = 0 its `dlogpostcv` call divides by zero.
- PlainSgld.ZvSgld.Update requires minibatch_size > 0: with m = 0 its `dlogpost` call divides by zero.
