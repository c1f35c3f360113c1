# Generalized linear model fitting engine and optimisation problem, in Dafny

This project models the discrete control and bookkeeping logic of two
OpenTURNS classes and proves properties of that model:

- `GeneralizedLinearModelAlgorithm`, the engine that fits a Gaussian-process
  regression with a linear trend. It sets up the data and the covariance
  model, reduces the model's active parameters, builds the design matrix,
  evaluates the reduced log-likelihood around a regularised Cholesky
  factorisation, drives an optimiser and assembles the result.
- `OptimizationProblemImplementation`, the mutable record of an
  optimisation problem: an objective, constraints, bounds, a level function
  and value, a minimisation flag and a dimension.

Floating-point arithmetic is modelled over `real`. Everything numerical is
a parameter:

- the covariance discretisation, the Cholesky and hierarchical-matrix
  factorisations, the triangular and least-squares solves, logarithms and
  the analytical amplitude formula, all in the `Numerics` record;
- the layouts of the product and tensorised covariance wrappers, in
  `Composer`;
- the standardisation of a sample and the optimiser itself, in `Services`;
- basis functions, given by their output dimension and the first component
  of their value.

`ResourceMap` entries and the `SpecFunc` constants become the `Config`
record.

Files and modules:

| file | module | contents |
|---|---|---|
| `common.dfy` | `Common` | error outcomes, `Result`, `Option`, samples, intervals |
| `covariance.dfy` | `CovarianceModels` | the covariance model's parameter layout, the four-case shape dispatch, the active-parameter reduction |
| `optimization_problem.dfy` | `Optim` | the class `OptimizationProblem` and its setters |
| `design.dfy` | `Design` | the design-matrix layout and the in-place fill of `computeF`; the partition of the trend coefficients |
| `factorization.dfy` | `Factorization` | the diagonal-regularisation retry ladders (dense and hierarchical), the noise, the log-determinant loop |
| `likelihood.dfy` | `Likelihood` | one likelihood evaluation on values, and the two backend methods |
| `glm.dfy` | `GLM` | the class `GeneralizedLinearModelAlgorithm`: constructors, setters, the caches, `run`, the optimiser-driving flow, the result |

The engine's class keeps two ghost fields: `evaluated`, the parameter
vectors at which the likelihood was computed, and `solverRuns`, the
number of optimiser runs. They make the optimiser-driving flow statable:
one evaluation and no optimiser run without parameters; otherwise one run,
its distinct requests, and one more evaluation at the optimum exactly when
the last value differs from the optimum.

Two points where the code differs from its documented behaviour. In both,
the model follows the code:

- the hierarchical-matrix backend never adds the observation noise
  (`HMatLogDeterminantCholesky`);
- the log-determinant sentinel is `-LogMaxNumericalScalar` on the dense
  path and `+MaxNumericalScalar` on the hierarchical one (`SentinelOf`).

## Model

Source paths are relative to the repository root.

| member | source | states |
|---|---|---|
| CovarianceModels.CovarianceModel.ParameterDescription | lib/src/Base/Stat/openturns/CovarianceModelImplementation.hxx:174 | the description of the i-th parameter is the description of the i-th active index |
| CovarianceModels.CovarianceModel.Parameter | lib/src/Base/Stat/openturns/CovarianceModelImplementation.hxx:173 | the parameter vector is as long as the active set; its i-th entry is the value at the i-th active index |
| CovarianceModels.CovarianceModel.SetActiveParameter | lib/src/Base/Stat/openturns/CovarianceModelImplementation.hxx:177 | only the active set changes, the parameter size is the new set's size, and the dimensions are kept |
| CovarianceModels.CovarianceModel.SetAmplitude | lib/src/Base/Stat/openturns/CovarianceModelImplementation.hxx:157 | only the amplitude changes; dimensions and well-formedness are kept |
| CovarianceModels.CovarianceModel.SetParameter | lib/src/Base/Stat/openturns/CovarianceModelImplementation.hxx:172 | reading the parameters back gives the vector just set; active set, descriptions, amplitude and dimensions are kept |
| CovarianceModels.AssignAt | lib/src/Base/Stat/openturns/CovarianceModelImplementation.hxx:172 | each active position receives its new value and every inactive position keeps its old one |
| CovarianceModels.Adapt | lib/src/Uncertainty/Algorithm/MetaModel/Kriging/GeneralizedLinearModelAlgorithm.cxx:380-396 | accepted exactly in the four admissible shapes, with InvalidArgument otherwise; the result always has the problem's input and output dimensions; a model of the right shape is kept as it is |
| CovarianceModels.FirstIndexOf | lib/src/Uncertainty/Algorithm/MetaModel/Kriging/GeneralizedLinearModelAlgorithm.cxx:411-412 | None exactly when the name is absent; otherwise a position holding the name with no earlier occurrence |
| CovarianceModels.FindAmplitudeIndex | lib/src/Uncertainty/Algorithm/MetaModel/Kriging/GeneralizedLinearModelAlgorithm.cxx:409-425 | the scan finds amplitude_0 exactly when it is present, and then at its first position |
| CovarianceModels.EraseKeepsDistinct | lib/src/Uncertainty/Algorithm/MetaModel/Kriging/GeneralizedLinearModelAlgorithm.cxx:415-417 | erasing one active index leaves a set without repeats, so it is a valid active set |
| CovarianceModels.Reduce | lib/src/Uncertainty/Algorithm/MetaModel/Kriging/GeneralizedLinearModelAlgorithm.cxx:398-427 | the analytical flag holds iff optimisation and the option are on, the model is scalar and amplitude_0 is active; without optimisation nothing stays active; with the flag, exactly the first amplitude_0 position is erased, the other descriptions keep their order, the amplitude is 1 and one parameter fewer remains; otherwise the model is unchanged |
| Optim.OptimizationProblem.constructor | lib/src/Base/Optim/OptimizationProblemImplementation.cxx:38-48 | a minimisation problem of dimension 0 with default functions, empty bounds and no level function |
| Optim.OptimizationProblem.FromObjective | lib/src/Base/Optim/OptimizationProblemImplementation.cxx:50-57 | the dimension is the objective's input dimension, minimisation, nothing else set |
| Optim.OptimizationProblem.General | lib/src/Base/Optim/OptimizationProblemImplementation.cxx:62-74 | succeeds iff the equality constraint, the inequality constraint and the bounds are each of dimension 0 or the objective's input dimension; the problem then holds exactly the arguments |
| Optim.OptimizationProblem.NearestPoint | lib/src/Base/Optim/OptimizationProblemImplementation.cxx:77-89 | succeeds iff the level function is scalar; the problem is then the nearest-point problem of that function and value |
| Optim.OptimizationProblem.SetObjective | lib/src/Base/Optim/OptimizationProblemImplementation.cxx:103-118 | a change of input dimension resets both constraints and empties the bounds, otherwise they are kept; the level function is always cleared with level value 0; the dimension follows the objective |
| Optim.OptimizationProblem.SetEqualityConstraint | lib/src/Base/Optim/OptimizationProblemImplementation.cxx:131-137 | accepted iff of input dimension 0 or the problem's; on success the level function is cleared and the constraint stored, on failure nothing changes |
| Optim.OptimizationProblem.SetInequalityConstraint | lib/src/Base/Optim/OptimizationProblemImplementation.cxx:150-156 | the same rule and effects, on the inequality constraint |
| Optim.OptimizationProblem.SetBounds | lib/src/Base/Optim/OptimizationProblemImplementation.cxx:169-179 | accepted iff of dimension 0 or the problem's, otherwise nothing changes; afterwards hasBounds holds iff the bounds are of positive dimension |
| Optim.OptimizationProblem.SetLevelFunction | lib/src/Base/Optim/OptimizationProblemImplementation.cxx:187-201 | accepted iff the output dimension is 1; then the level function is kept, the dimension is its input dimension, the objective is the nearest-point quadratic, the equality constraint is level minus value and the inequality constraint is reset |
| Optim.OptimizationProblem.SetLevelValue | lib/src/Base/Optim/OptimizationProblemImplementation.cxx:214-219 | the value is always stored; the constraints are rebuilt iff a level function is set, and otherwise nothing else changes |
| Optim.OptimizationProblem.SetNearestPointConstraints | lib/src/Base/Optim/OptimizationProblemImplementation.cxx:221-229 | the equality constraint becomes level function minus level value, the inequality constraint is reset, nothing else changes |
| Optim.OptimizationProblem.ClearLevelFunction | lib/src/Base/Optim/OptimizationProblemImplementation.cxx:231-236 | no level function, level value 0, nothing else changes |
| Optim.OptimizationProblem.SetMinimization | lib/src/Base/Optim/OptimizationProblemImplementation.cxx:245-253 | isMinimization returns the new flag and no other field changes |
| Design.OwnerIn | lib/src/Uncertainty/Algorithm/MetaModel/Kriging/GeneralizedLinearModelAlgorithm.cxx:546-551 | the marginal found for a column has that column within its range of columns |
| Design.Owner | lib/src/Uncertainty/Algorithm/MetaModel/Kriging/GeneralizedLinearModelAlgorithm.cxx:546-551 | every column of the design matrix lies in the column range of a marginal |
| Design.OwnerOfColumn | lib/src/Uncertainty/Algorithm/MetaModel/Kriging/GeneralizedLinearModelAlgorithm.cxx:546-556 | the running column index Offset(k) + j is a column of the matrix and belongs to marginal k and no other |
| Design.OwnerUnique | lib/src/Uncertainty/Algorithm/MetaModel/Kriging/GeneralizedLinearModelAlgorithm.cxx:546-556 | the column ranges of two different marginals never overlap |
| Design.RowOf | lib/src/Uncertainty/Algorithm/MetaModel/Kriging/GeneralizedLinearModelAlgorithm.cxx:555 | row outputMarginal + i*outputDimension belongs to point i and marginal outputMarginal |
| Design.PointOf | lib/src/Uncertainty/Algorithm/MetaModel/Kriging/GeneralizedLinearModelAlgorithm.cxx:554-555 | every row of the matrix belongs to an existing sample point |
| Design.DesignEntryLayout | lib/src/Uncertainty/Algorithm/MetaModel/Kriging/GeneralizedLinearModelAlgorithm.cxx:543-556 | column Offset(k) + j holds basis function j of marginal k evaluated at point i in row k + i*d |
| Design.DesignEntryZero | lib/src/Uncertainty/Algorithm/MetaModel/Kriging/GeneralizedLinearModelAlgorithm.cxx:543-556 | every entry in a row of another marginal than the column's is zero |
| Design.BuildDesignMatrix | lib/src/Uncertainty/Algorithm/MetaModel/Kriging/GeneralizedLinearModelAlgorithm.cxx:536-557 | the matrix has size*d rows and one column per basis function, and every entry is the design-matrix layout |
| Design.FillColumn | lib/src/Uncertainty/Algorithm/MetaModel/Kriging/GeneralizedLinearModelAlgorithm.cxx:551-556 | writing one basis function's column keeps the earlier columns and fills this one; the later columns stay zero |
| Design.ColumnStep | lib/src/Uncertainty/Algorithm/MetaModel/Kriging/GeneralizedLinearModelAlgorithm.cxx:555 | writing row m + i*d extends the column's filled rows from i points to i + 1 points |
| Design.ColumnDone | lib/src/Uncertainty/Algorithm/MetaModel/Kriging/GeneralizedLinearModelAlgorithm.cxx:551-556 | once every point's row of marginal m is written, the matrix is filled up to the next column |
| Design.Slices | lib/src/Uncertainty/Algorithm/MetaModel/Kriging/GeneralizedLinearModelAlgorithm.cxx:604-619 | one coefficient vector per marginal, each the slice of beta over that marginal's columns |
| Design.SlicesUpTo | lib/src/Uncertainty/Algorithm/MetaModel/Kriging/GeneralizedLinearModelAlgorithm.cxx:608-619 | the coefficient vectors of the first n marginals, each marginal's slice of beta |
| Design.Slice | lib/src/Uncertainty/Algorithm/MetaModel/Kriging/GeneralizedLinearModelAlgorithm.cxx:610-618 | a marginal's coefficient vector has as many entries as its basis has functions |
| Design.ConcatSlices | lib/src/Uncertainty/Algorithm/MetaModel/Kriging/GeneralizedLinearModelAlgorithm.cxx:604-619 | the per-marginal vectors, concatenated in order, give back beta |
| Design.ConcatPrefix | lib/src/Uncertainty/Algorithm/MetaModel/Kriging/GeneralizedLinearModelAlgorithm.cxx:607-619 | the vectors of the first n marginals concatenate to the prefix of beta up to where marginal n starts |
| Design.CoefficientRows | lib/src/Uncertainty/Algorithm/MetaModel/Kriging/GeneralizedLinearModelAlgorithm.cxx:605-615 | the trend coefficient sample has one row per entry of beta and one column per model output, and row c carries beta[c] exactly in the column of the marginal owning c, zero elsewhere |
| Design.PartitionCoefficients | lib/src/Uncertainty/Algorithm/MetaModel/Kriging/GeneralizedLinearModelAlgorithm.cxx:604-619 | the loop returns exactly the per-marginal slices and a sample holding exactly the coefficient layout |
| Design.PartitionMarginal | lib/src/Uncertainty/Algorithm/MetaModel/Kriging/GeneralizedLinearModelAlgorithm.cxx:610-618 | one marginal's pass appends that marginal's slice, advances the running size to the next marginal's offset, and stores those rows |
| Design.StoreCoefficient | lib/src/Uncertainty/Algorithm/MetaModel/Kriging/GeneralizedLinearModelAlgorithm.cxx:614-616 | one step stores coefficient Offset(k) + j in column k of its row, keeping the layout of the rows before it |
| Factorization.AddDiagonal | lib/src/Uncertainty/Algorithm/MetaModel/Kriging/GeneralizedLinearModelAlgorithm.cxx:793 | only the diagonal entries grow, each by its own value; every off-diagonal entry is unchanged |
| Factorization.AddToDiagonal | lib/src/Uncertainty/Algorithm/MetaModel/Kriging/GeneralizedLinearModelAlgorithm.cxx:814 | the in-place loop leaves the matrix equal to the old one with the vector added to its diagonal |
| Factorization.ShiftedTwice | lib/src/Uncertainty/Algorithm/MetaModel/Kriging/GeneralizedLinearModelAlgorithm.cxx:812-814 | shifting the diagonal by a, then by b, is shifting it by a + b, so the repeated in-place shifts add up to the cumulated scaling |
| Factorization.GeometricSeries | lib/src/Uncertainty/Algorithm/MetaModel/Kriging/GeneralizedLinearModelAlgorithm.cxx:800-816 | after k failures, scaling = start*2^k and cumulatedScaling = start*(2^k - 1) = scaling - start |
| Factorization.FailuresBounded | lib/src/Uncertainty/Algorithm/MetaModel/Kriging/GeneralizedLinearModelAlgorithm.cxx:802 | while the cumulated scaling is below the ceiling, at most floor(max/start) failures have happened, so the loop terminates |
| Factorization.LadderFromFacts | lib/src/Uncertainty/Algorithm/MetaModel/Kriging/GeneralizedLinearModelAlgorithm.cxx:802-817 | from any point of the loop on, every later failed attempt ran below the ceiling; the loop ends on a success below it, or once the cumulated scaling reaches it |
| Factorization.LadderStops | lib/src/Uncertainty/Algorithm/MetaModel/Kriging/GeneralizedLinearModelAlgorithm.cxx:797-817 | the loop makes at most MaxFailures + 1 failures, every earlier attempt failed below the ceiling, and it succeeds iff its last attempt factorises below the ceiling |
| Factorization.RaisesAsWrittenCoversFailure | lib/src/Uncertainty/Algorithm/MetaModel/Kriging/GeneralizedLinearModelAlgorithm.cxx:818-820 | the written test on the final scaling throws whenever no factorisation was found |
| Factorization.RaisesAsWrittenAfterSuccess | lib/src/Uncertainty/Algorithm/MetaModel/Kriging/GeneralizedLinearModelAlgorithm.cxx:818-820 | with start 1 and ceiling 8, a fourth attempt that factorises still makes the written test throw (see Findings) |
| Factorization.RegularizeDense | lib/src/Uncertainty/Algorithm/MetaModel/Kriging/GeneralizedLinearModelAlgorithm.cxx:797-817 | the loop's factor, scaling and cumulated scaling are those of the ladder; the matrix ends shifted on its diagonal by exactly the cumulated scaling; a factor found is the factorisation of that matrix |
| Factorization.TenthClosedForm | lib/src/Uncertainty/Algorithm/MetaModel/Kriging/GeneralizedLinearModelAlgorithm.cxx:898-901 | after k failures each compression epsilon is its starting value divided by 10^k |
| Factorization.RegularizeHMat | lib/src/Uncertainty/Algorithm/MetaModel/Kriging/GeneralizedLinearModelAlgorithm.cxx:864-906 | the hierarchical loop follows the same ladder; both epsilons are divided by 10 per failure; a factor found is the assembly at the cumulated scaling and the final epsilons |
| Factorization.NoiseDiagonalAsWritten | lib/src/Uncertainty/Algorithm/MetaModel/Kriging/GeneralizedLinearModelAlgorithm.cxx:790-794 | the noise loop as written adds noise[i] to diagonal entry i for every row of C (see Findings) |
| Factorization.NoiseAsWrittenOutOfRange | lib/src/Uncertainty/Algorithm/MetaModel/Kriging/GeneralizedLinearModelAlgorithm.cxx:793 | with a non-empty noise and more than one output marginal, the row numbered by the noise size is one of C's rows (NoiseDiagonal's length), so NoiseDiagonalAsWritten's requires fails for C's dimension |
| Factorization.NoiseDiagonal | lib/src/Uncertainty/Algorithm/MetaModel/Kriging/GeneralizedLinearModelAlgorithm.cxx:790-794 | each of the d rows of sample point i receives that point's noise |
| Factorization.NoiseDiagonalScalar | lib/src/Uncertainty/Algorithm/MetaModel/Kriging/GeneralizedLinearModelAlgorithm.cxx:790-794 | with one output marginal the intended and the written noise diagonals coincide |
| Factorization.LogDeterminant | lib/src/Uncertainty/Algorithm/MetaModel/Kriging/GeneralizedLinearModelAlgorithm.cxx:848-856 | twice the sum of the logs of the diagonal when every entry is positive, the sentinel as soon as one is not |
| Factorization.Diagonal | lib/src/Uncertainty/Algorithm/MetaModel/Kriging/GeneralizedLinearModelAlgorithm.cxx:931 | the diagonal of a factor has one entry per row, entry i being L(i, i) |
| Likelihood.FlattenSize | lib/src/Uncertainty/Algorithm/MetaModel/Kriging/GeneralizedLinearModelAlgorithm.cxx:826 | the output data as one vector has size*dimension values |
| Likelihood.WithNoise | lib/src/Uncertainty/Algorithm/MetaModel/Kriging/GeneralizedLinearModelAlgorithm.cxx:790-794 | with one noise value per sample point, each diagonal entry of the rows of point i grows by point i's noise and every other entry is kept; without such noise the matrix is unchanged |
| Likelihood.AttemptedStops | lib/src/Uncertainty/Algorithm/MetaModel/Kriging/GeneralizedLinearModelAlgorithm.cxx:797-822 | an evaluation ends with a factor exactly when its ladder does not give up |
| Likelihood.FitOf | lib/src/Uncertainty/Algorithm/MetaModel/Kriging/GeneralizedLinearModelAlgorithm.cxx:830-846 | with a trend, beta has one coefficient per design-matrix column; without one, beta keeps its previous value |
| Likelihood.Evaluate | lib/src/Uncertainty/Algorithm/MetaModel/Kriging/GeneralizedLinearModelAlgorithm.cxx:783-857 | InvalidArgument exactly when the ladder gives up; otherwise the factor is the one the ladder ends with, the fit is the trend step with it, and beta is kept without a trend |
| Likelihood.FactorizeDense | lib/src/Uncertainty/Algorithm/MetaModel/Kriging/GeneralizedLinearModelAlgorithm.cxx:789-822 | no factor iff the ladder gives up on the discretised matrix plus noise; a factor found is that of the matrix shifted by the cumulated scaling |
| Likelihood.LapackLogDeterminantCholesky | lib/src/Uncertainty/Algorithm/MetaModel/Kriging/GeneralizedLinearModelAlgorithm.cxx:783-857 | the dense backend's method gives the evaluation Evaluate specifies for it |
| Likelihood.HMatLogDeterminantCholesky | lib/src/Uncertainty/Algorithm/MetaModel/Kriging/GeneralizedLinearModelAlgorithm.cxx:859-939 | the hierarchical backend's method gives the evaluation Evaluate specifies for it |
| Likelihood.ReducedLogLikelihood | lib/src/Uncertainty/Algorithm/MetaModel/Kriging/GeneralizedLinearModelAlgorithm.cxx:773-777 | LogMin when the squared residual norm is not positive; otherwise a value strictly below -logDet/2 |
| Likelihood.Conclude | lib/src/Uncertainty/Algorithm/MetaModel/Kriging/GeneralizedLinearModelAlgorithm.cxx:756-770 | the amplitude step keeps the parameter values, the active set and the dimensions; without an analytical amplitude model and residual are unchanged; with one the model's amplitude is a single value |
| GLM.SolverNamed | lib/src/Uncertainty/Algorithm/MetaModel/Kriging/GeneralizedLinearModelAlgorithm.cxx:494-502 | a solver exactly for TNC, NELDER-MEAD and LBFGS, InvalidArgument otherwise; the NLopt algorithms are LN_NELDERMEAD and LD_LBFGS |
| GLM.Transform | lib/src/Uncertainty/Algorithm/MetaModel/Kriging/GeneralizedLinearModelAlgorithm.cxx:525 | the transformed sample has the transformation's output dimension, the same size, and point i is the image of point i |
| GLM.TransformIdentity | lib/src/Uncertainty/Algorithm/MetaModel/Kriging/GeneralizedLinearModelAlgorithm.cxx:966 | the identity getInputTransformation returns leaves a sample as it is |
| GLM.DefaultBounds | lib/src/Uncertainty/Algorithm/MetaModel/Kriging/GeneralizedLinearModelAlgorithm.cxx:430-437 | bounds of the reduced parameter count, constant at the configured lower and upper values, or the empty interval for 0 parameters |
| GLM.SetupCovariance | lib/src/Uncertainty/Algorithm/MetaModel/Kriging/GeneralizedLinearModelAlgorithm.cxx:366-438 | succeeds iff the shape dispatch does; the reduced model has the problem's dimensions, the bounds are as large as its parameter vector, and without optimisation nothing is active and the amplitude is not analytical |
| GLM.SetupOfAdapted | lib/src/Uncertainty/Algorithm/MetaModel/Kriging/GeneralizedLinearModelAlgorithm.cxx:976-984 | setting the already adapted model again gives the same set-up as the original, so re-deriving after a flag change is consistent |
| GLM.FirstOccurrences | lib/src/Uncertainty/Algorithm/MetaModel/Kriging/GeneralizedLinearModelAlgorithm.cxx:1065 | the points a cached objective computes are exactly the requested points, no more of them than requests |
| GLM.FirstOccurrencesDistinct | lib/src/Uncertainty/Algorithm/MetaModel/Kriging/GeneralizedLinearModelAlgorithm.cxx:1065 | a cached objective never computes the same point twice |
| GLM.LikelihoodProblem | lib/src/Uncertainty/Algorithm/MetaModel/Kriging/GeneralizedLinearModelAlgorithm.cxx:712-715 | the problem handed to the solver has the parameters' dimension, a scalar objective of that input dimension, the optimisation bounds, and maximises |
| GLM.BuildLikelihoodProblem | lib/src/Uncertainty/Algorithm/MetaModel/Kriging/GeneralizedLinearModelAlgorithm.cxx:712-715 | the setters setObjective, setMinimization(false) and setBounds build that problem, and always accept bounds of the parameters' dimension |
| GLM.ParametrizedModel | lib/src/Uncertainty/Algorithm/MetaModel/Kriging/GeneralizedLinearModelAlgorithm.cxx:746-747 | the model then has exactly the given parameters, the same active set and dimensions, and amplitude 1 when the amplitude is analytical |
| GLM.BasisOf | lib/src/Uncertainty/Algorithm/MetaModel/Kriging/GeneralizedLinearModelAlgorithm.cxx:165-176 | a non-empty shared basis is repeated once per output marginal, a collection is taken as it is, no basis gives none |
| GLM.RefitOf | lib/src/Uncertainty/Algorithm/MetaModel/Kriging/GeneralizedLinearModelAlgorithm.cxx:743-779 | InvalidArgument exactly when the ladder gives up; otherwise only the backend's own factor is replaced, beta is the trend fit with it, and model, residual and value are those of the amplitude step, with the parameter values and active set kept |
| GLM.Refit | lib/src/Uncertainty/Algorithm/MetaModel/Kriging/GeneralizedLinearModelAlgorithm.cxx:750-777 | dispatching on the backend computes exactly RefitOf |
| GLM.RefitAt | lib/src/Uncertainty/Algorithm/MetaModel/Kriging/GeneralizedLinearModelAlgorithm.cxx:735-780 | one evaluation of computeReducedLogLikelihood on a model and fit: InvalidArgument for a vector of the wrong size and no other error; a success has exactly the requested parameters and keeps the model's parameter size and dimension |
| GLM.Replayed | lib/src/Uncertainty/Algorithm/MetaModel/Kriging/GeneralizedLinearModelAlgorithm.cxx:1056-1067 | successive evaluations at a list of points, each from the model and fit the previous one left, stopping at the first failure: the only error is InvalidArgument, and a success keeps the model well formed with its parameter size and dimension |
| GLM.ReplayedAppend | lib/src/Uncertainty/Algorithm/MetaModel/Kriging/GeneralizedLinearModelAlgorithm.cxx:1056-1067 | replaying xs and then ys is replaying ys from where xs left off |
| GLM.ReplayedFailureSticks | lib/src/Uncertainty/Algorithm/MetaModel/Kriging/GeneralizedLinearModelAlgorithm.cxx:1056-1067 | once an evaluation in the list fails, the replay of any longer list fails |
| GLM.ResultOf | lib/src/Uncertainty/Algorithm/MetaModel/Kriging/GeneralizedLinearModelAlgorithm.cxx:604-678 | the result carries the samples, the bases, the per-marginal slices of beta, the coefficient layout, the reduced model, the optimum, the factors only when they are kept, and the transformation |
| GLM.ResultCoefficients | lib/src/Uncertainty/Algorithm/MetaModel/Kriging/GeneralizedLinearModelAlgorithm.cxx:604-619 | the result's trend coefficients, put back together, give beta |
| GLM.SampleRows | lib/src/Uncertainty/Algorithm/MetaModel/Kriging/GeneralizedLinearModelAlgorithm.cxx:605-615 | the array the partition fills, read back, is the coefficient layout |
| GLM.GeneralizedLinearModelAlgorithm.Init | lib/src/Uncertainty/Algorithm/MetaModel/Kriging/GeneralizedLinearModelAlgorithm.cxx:47-69 | the initialiser list: empty caches and basis, no noise, no result, not run, dense backend, optimisation flag as given |
| GLM.GeneralizedLinearModelAlgorithm.CreateDefault | lib/src/Uncertainty/Algorithm/MetaModel/Kriging/GeneralizedLinearModelAlgorithm.cxx:46-74 | succeeds iff the default model can be set for samples of dimension 1 and the configured solver name is known; then optimisation is on, the backend dense and nothing run |
| GLM.GeneralizedLinearModelAlgorithm.SetDefaults | lib/src/Uncertainty/Algorithm/MetaModel/Kriging/GeneralizedLinearModelAlgorithm.cxx:72-73 | succeeds iff the model set-up and the solver name both succeed, and then the solver is the named one |
| GLM.GeneralizedLinearModelAlgorithm.Create | lib/src/Uncertainty/Algorithm/MetaModel/Kriging/GeneralizedLinearModelAlgorithm.cxx:77-351 | different sample sizes fail with InvalidArgument; InvalidDimension only from a given map, or from a standardisation that is not a map of the input space into itself (never the case for the source's LinearFunction); on success the engine holds the samples, the covariance set-up, the basis the argument stands for, the normalise flag, the configured backend and solver, and has not run |
| GLM.GeneralizedLinearModelAlgorithm.WithData | lib/src/Uncertainty/Algorithm/MetaModel/Kriging/GeneralizedLinearModelAlgorithm.cxx:106-110 | setData then setCovarianceModel on a fresh engine: fails only with InvalidArgument, always on different sizes; otherwise holds the samples and the covariance set-up |
| GLM.GeneralizedLinearModelAlgorithm.SetUp | lib/src/Uncertainty/Algorithm/MetaModel/Kriging/GeneralizedLinearModelAlgorithm.cxx:284-285 | fails only with InvalidArgument, always on different sample sizes; on success the samples and the covariance set-up are stored |
| GLM.GeneralizedLinearModelAlgorithm.FinishConstruction | lib/src/Uncertainty/Algorithm/MetaModel/Kriging/GeneralizedLinearModelAlgorithm.cxx:287-306 | basis, then normalisation, then backend and solver: the basis the argument stands for, normalisation switched on by a standardisation request or a given map and otherwise kept, the configured backend and solver; InvalidDimension only from a given map or a standardisation that changes the dimension |
| GLM.GeneralizedLinearModelAlgorithm.SetInputs | lib/src/Uncertainty/Algorithm/MetaModel/Kriging/GeneralizedLinearModelAlgorithm.cxx:287-303 | the basis the argument stands for, then normalisation switched on by a standardisation request or a given map and otherwise kept; the covariance set-up and data are untouched; InvalidDimension only from a given map or a standardisation that changes the dimension |
| GLM.GeneralizedLinearModelAlgorithm.InitializeEngine | lib/src/Uncertainty/Algorithm/MetaModel/Kriging/GeneralizedLinearModelAlgorithm.cxx:305-306 | the backend follows the configuration, and the step succeeds iff the solver name is known |
| GLM.GeneralizedLinearModelAlgorithm.SetBasisArgument | lib/src/Uncertainty/Algorithm/MetaModel/Kriging/GeneralizedLinearModelAlgorithm.cxx:165-176 | a shared basis is copied without a check; a non-empty collection is accepted iff it has one basis per output and a first function of positive dimension; an empty argument keeps the collection |
| GLM.GeneralizedLinearModelAlgorithm.SetTransformationArgument | lib/src/Uncertainty/Algorithm/MetaModel/Kriging/GeneralizedLinearModelAlgorithm.cxx:112-126 | normalise=false changes nothing; otherwise the standardisation or the given map is installed and normalisation is on, with InvalidDimension for a given map of the wrong dimensions; a standardisation that maps the input space into itself is always accepted |
| GLM.GeneralizedLinearModelAlgorithm.SetData | lib/src/Uncertainty/Algorithm/MetaModel/Kriging/GeneralizedLinearModelAlgorithm.cxx:354-363 | accepted iff the samples have the same size; otherwise InvalidArgument and nothing changes |
| GLM.GeneralizedLinearModelAlgorithm.SetCovarianceModel | lib/src/Uncertainty/Algorithm/MetaModel/Kriging/GeneralizedLinearModelAlgorithm.cxx:366-438 | succeeds iff the shape dispatch does, and then stores the adapted model, its reduction, the flag and the bounds; on failure InvalidArgument and nothing changes |
| GLM.GeneralizedLinearModelAlgorithm.SetBasisCollection | lib/src/Uncertainty/Algorithm/MetaModel/Kriging/GeneralizedLinearModelAlgorithm.cxx:451-479 | accepted iff one basis per output marginal and the first function of the first non-empty basis has positive output dimension; otherwise nothing changes |
| GLM.GeneralizedLinearModelAlgorithm.SetNoise | lib/src/Uncertainty/Algorithm/MetaModel/Kriging/GeneralizedLinearModelAlgorithm.cxx:999-1006 | accepted iff one value per sample point and every value is >= 0; otherwise nothing changes |
| GLM.GeneralizedLinearModelAlgorithm.SetOptimizationBounds | lib/src/Uncertainty/Algorithm/MetaModel/Kriging/GeneralizedLinearModelAlgorithm.cxx:987-991 | accepted iff of the reduced parameter count; otherwise nothing changes |
| GLM.GeneralizedLinearModelAlgorithm.SetOptimizeParameters | lib/src/Uncertainty/Algorithm/MetaModel/Kriging/GeneralizedLinearModelAlgorithm.cxx:976-984 | an unchanged flag changes nothing; a new flag is stored and the reduction and bounds are re-derived from the stored model |
| GLM.GeneralizedLinearModelAlgorithm.SetOptimizationSolver | lib/src/Uncertainty/Algorithm/MetaModel/Kriging/GeneralizedLinearModelAlgorithm.cxx:946-950 | the solver is stored and the engine must run again |
| GLM.GeneralizedLinearModelAlgorithm.SetInputTransformation | lib/src/Uncertainty/Algorithm/MetaModel/Kriging/GeneralizedLinearModelAlgorithm.cxx:952-961 | accepted iff the map goes from the input space to itself, with InvalidDimension otherwise; then stored, with normalisation on |
| GLM.GeneralizedLinearModelAlgorithm.InputTransformation | lib/src/Uncertainty/Algorithm/MetaModel/Kriging/GeneralizedLinearModelAlgorithm.cxx:963-968 | the identity of the input dimension when not normalising, the stored map otherwise |
| GLM.GeneralizedLinearModelAlgorithm.InitializeMethod | lib/src/Uncertainty/Algorithm/MetaModel/Kriging/GeneralizedLinearModelAlgorithm.cxx:1069-1073 | HMAT selects the hierarchical backend; any other setting keeps the backend |
| GLM.GeneralizedLinearModelAlgorithm.InitializeDefaultOptimizationSolver | lib/src/Uncertainty/Algorithm/MetaModel/Kriging/GeneralizedLinearModelAlgorithm.cxx:492-503 | succeeds iff the configured name is known, then installs the named solver; otherwise nothing changes |
| GLM.GeneralizedLinearModelAlgorithm.NormalizeInputSample | lib/src/Uncertainty/Algorithm/MetaModel/Kriging/GeneralizedLinearModelAlgorithm.cxx:513-526 | computed only while empty; then the transformed input sample, which is the input sample itself without normalisation |
| GLM.GeneralizedLinearModelAlgorithm.ComputeF | lib/src/Uncertainty/Algorithm/MetaModel/Kriging/GeneralizedLinearModelAlgorithm.cxx:529-558 | nothing happens once F has rows; otherwise F is the design matrix of the stored bases and normalised points |
| GLM.GeneralizedLinearModelAlgorithm.PrepareData | lib/src/Uncertainty/Algorithm/MetaModel/Kriging/GeneralizedLinearModelAlgorithm.cxx:1056-1061 | afterwards the normalised sample has the sample's size and F one column per basis function |
| GLM.GeneralizedLinearModelAlgorithm.ComputeReducedLogLikelihood | lib/src/Uncertainty/Algorithm/MetaModel/Kriging/GeneralizedLinearModelAlgorithm.cxx:735-780 | a parameter vector of the wrong size is InvalidArgument and changes nothing; otherwise the parameters are set (amplitude 1 first when analytical), the evaluation is RefitOf, and on success the model, fit and value are stored and the point recorded as evaluated |
| GLM.GeneralizedLinearModelAlgorithm.EvaluateAt | lib/src/Uncertainty/Algorithm/MetaModel/Kriging/GeneralizedLinearModelAlgorithm.cxx:744-780 | past the size check: the evaluation is RefitOf at the reparametrised model, a failure leaves only that model behind, a success stores its model, fit and value and records the point |
| GLM.GeneralizedLinearModelAlgorithm.Record | lib/src/Uncertainty/Algorithm/MetaModel/Kriging/GeneralizedLinearModelAlgorithm.cxx:747-779 | a failed evaluation leaves only the reparametrised model behind; a successful one stores its model, fit and value and records the point |
| GLM.GeneralizedLinearModelAlgorithm.Objective | lib/src/Uncertainty/Algorithm/MetaModel/Kriging/GeneralizedLinearModelAlgorithm.cxx:1056-1067 | a parameter vector of the wrong size fails and changes nothing; otherwise the outcome, the new working model and the fit are RefitOf at x (the reduced log-likelihood at x), the value is stored and x is recorded on success; it succeeds exactly when Replayed on the single point x does, leaving Replayed's model and fit |
| GLM.GeneralizedLinearModelAlgorithm.Replay | lib/src/Uncertainty/Algorithm/MetaModel/Kriging/GeneralizedLinearModelAlgorithm.cxx:1065 | the optimiser's requests through the cache evaluate exactly their first occurrences, in order; it succeeds exactly when Replayed on those first occurrences from the entry model and fit does, and then the model and fit are Replayed's; nothing evaluated leaves the fit untouched |
| GLM.GeneralizedLinearModelAlgorithm.Request | lib/src/Uncertainty/Algorithm/MetaModel/Kriging/GeneralizedLinearModelAlgorithm.cxx:1065 | one request through the cache: a cached point passes and evaluates nothing, a new point is evaluated once and added to the cache; the first occurrences so far stay Replayed from the entry state, and a failure means Replayed on all first occurrences fails |
| GLM.GeneralizedLinearModelAlgorithm.Miss | lib/src/Uncertainty/Algorithm/MetaModel/Kriging/GeneralizedLinearModelAlgorithm.cxx:1065 | a request not seen before is evaluated and recorded; on success the first occurrences up to it are Replayed to the new state, on failure Replayed on all first occurrences fails and nothing is recorded |
| GLM.GeneralizedLinearModelAlgorithm.Consult | lib/src/Uncertainty/Algorithm/MetaModel/Kriging/GeneralizedLinearModelAlgorithm.cxx:1056-1067 | evaluating the objective at one more point extends the replay by that point: success exactly as Replayed extended by it succeeds, leaving Replayed's model and fit |
| GLM.GeneralizedLinearModelAlgorithm.ReplayOne | lib/src/Uncertainty/Algorithm/MetaModel/Kriging/GeneralizedLinearModelAlgorithm.cxx:1056-1067 | Replayed on one point is InvalidArgument for a vector of the wrong size, and otherwise RefitOf at that point from the current model, fit and data |
| GLM.GeneralizedLinearModelAlgorithm.MaximizeReducedLogLikelihood | lib/src/Uncertainty/Algorithm/MetaModel/Kriging/GeneralizedLinearModelAlgorithm.cxx:693-733 | with no parameter, one evaluation at the initial point and no optimiser run, whose outcome, model and fit are Replayed on that point; otherwise exactly one run, its distinct requests evaluated, one more evaluation at the optimum iff the last computed value differs from the optimum, that last value being the one Replayed on the distinct requests leaves (the stored one when the optimiser requested no point); the final model and fit are Replayed on the distinct requests followed by the optimum iff it was re-evaluated; afterwards the stored value is the optimum or the optimum was evaluated; the optimum returned |
| GLM.GeneralizedLinearModelAlgorithm.Search | lib/src/Uncertainty/Algorithm/MetaModel/Kriging/GeneralizedLinearModelAlgorithm.cxx:711-732 | one optimiser run from the initial parameters, then what Settle states of that run: the optimum re-evaluated iff the last value (the one Replayed on the distinct requests leaves) differs, and the final model and fit Replayed on the distinct requests followed by the optimum iff re-evaluated; returns the optimum |
| GLM.GeneralizedLinearModelAlgorithm.Settle | lib/src/Uncertainty/Algorithm/MetaModel/Kriging/GeneralizedLinearModelAlgorithm.cxx:721-732 | the run's requests through the cache, then the optimum re-evaluated iff the last computed value differs; that last value is the one Replayed on the distinct requests leaves; the final model and fit are Replayed on the distinct requests followed by the optimum iff re-evaluated; afterwards the stored value is the optimum or the optimum was evaluated; returns the optimum |
| GLM.GeneralizedLinearModelAlgorithm.RunSolver | lib/src/Uncertainty/Algorithm/MetaModel/Kriging/GeneralizedLinearModelAlgorithm.cxx:711-721 | one optimiser run on the likelihood problem from the initial parameters |
| GLM.GeneralizedLinearModelAlgorithm.Polish | lib/src/Uncertainty/Algorithm/MetaModel/Kriging/GeneralizedLinearModelAlgorithm.cxx:724-732 | the optimum is evaluated again iff the last computed value differs from it, and otherwise the fit is untouched; the new model and fit are Replayed on the optimum when it is re-evaluated and unchanged otherwise; it fails only when re-evaluating, exactly as Replayed on the optimum fails; returns the optimum |
| GLM.GeneralizedLinearModelAlgorithm.Run | lib/src/Uncertainty/Algorithm/MetaModel/Kriging/GeneralizedLinearModelAlgorithm.cxx:579-680 | a no-op once run; otherwise on success hasRun is set and the result is ResultOf of the final fit, with the solver's optimum (or the single evaluation's value without parameters) as optimal log-likelihood |
| GLM.GeneralizedLinearModelAlgorithm.Estimate | lib/src/Uncertainty/Algorithm/MetaModel/Kriging/GeneralizedLinearModelAlgorithm.cxx:584-599 | normalise, build F, maximise: the value is the solver's optimum, or the single evaluation's value without parameters |
| GLM.GeneralizedLinearModelAlgorithm.StoreEstimates | lib/src/Uncertainty/Algorithm/MetaModel/Kriging/GeneralizedLinearModelAlgorithm.cxx:600-679 | succeeds iff beta covers every basis function; then beta and the value are kept, the result is ResultOf, and hasRun is set |
| GLM.GeneralizedLinearModelAlgorithm.GetResult | lib/src/Uncertainty/Algorithm/MetaModel/Kriging/GeneralizedLinearModelAlgorithm.cxx:1049-1053 | the stored result, without running again, once a run has completed; otherwise the result of running: ResultOf the final fit and model with the solver's optimum (or the single evaluation's value without parameters), and on failure no result stored and hasRun still false |
| GLM.ReduceModel | lib/src/Uncertainty/Algorithm/MetaModel/Kriging/GeneralizedLinearModelAlgorithm.cxx:398-427 | the statements of the reduction compute exactly Reduce |
| GLM.FirstOutputDimension | lib/src/Uncertainty/Algorithm/MetaModel/Kriging/GeneralizedLinearModelAlgorithm.cxx:458-473 | the try/catch loop ends with the output dimension of the first function of the first non-empty basis, or 0 when there is none |
| GLM.FirstFunctionAt | lib/src/Uncertainty/Algorithm/MetaModel/Kriging/GeneralizedLinearModelAlgorithm.cxx:463-467 | when the bases before index are empty and basis index is not, the search ends on its first function |
| GLM.FirstFunctionDimensionPositive | lib/src/Uncertainty/Algorithm/MetaModel/Kriging/GeneralizedLinearModelAlgorithm.cxx:474-475 | a positive dimension means some basis is non-empty, and a collection of empty bases is always rejected |

## Left out

- Floating point: all values are `real`; rounding, overflow, NaN and the
  accuracy of every numerical step are not modelled.
- The numerical collaborators are parameters and are not checked. These
  are the covariance discretisation, the Cholesky and hierarchical-matrix
  factorisation, the triangular and least-squares solves, `log`, `sqrt`,
  the analytical sigma formula, rescaling the residual and scaling a
  factor.
- The product and tensorised covariance wrappers: only their dimensions
  are modelled. Their parameter layouts come from the `Composer`.
- The metamodel built by `run` (the linear combination of the basis, the
  zero function without a basis, the composition with the transformation),
  the residuals and the relative errors: floating point and foreign
  function construction.
- The standardisation (mean and standard deviation per component, and the
  two thresholds the constructors use) is the `standardize` service. Only
  its dimensions are stated, by `Services.StandardizeKeepsDimension`: the
  constructors' contracts assume it where they rule out InvalidDimension.
- `checkYCentered` and all logging: they only warn.
- `getObjectiveFunction`'s finite-difference gradient: the optimiser is
  one opaque call that reports the points it asked for and its optimum.
- `save`, `load`, `clone`, `__repr__` and the plain getters.
- `setMethod`, the protected backend accessor used by other classes: the
  backend is set only by `initializeMethod`.
- OptimizationProblemImplementation's `getDimension`, `hasMultipleObjective`
  and the other `has*` queries are predicates read by the setters'
  contracts. They have no contracts of their own.
- Amplitude: the unbiased-variance option computes `size - beta.size` on
  unsigned integers, which wraps around when beta is larger. That
  computation lives inside the `amplitude` parameter and is not modelled.
- GLM.GeneralizedLinearModelAlgorithm.Valid: requires a positive starting
  scaling. With a starting scaling of 0 or less and a positive ceiling,
  the source's retry loop does not terminate when every attempt fails.
- GLM.GeneralizedLinearModelAlgorithm.Consistent: rules out a normalised
  sample, design matrix or noise of another size than the data. The
  source would still use such caches left over from earlier data, since
  `setData` clears neither.
- GLM.GeneralizedLinearModelAlgorithm.StoreEstimates: fails with
  InvalidDimension when beta has fewer entries than the bases have
  functions. This happens when no evaluation ever computed beta: the
  optimiser requests no point and its optimum equals the stored value. The
  source then reads `beta_` past its end.
- GLM.GeneralizedLinearModelAlgorithm.StoreEstimates: does not relate the
  kept factor after rescaling by the analytical amplitude to the factor
  before it. Its contract only states the rescaled fit through ResultOf.
- GLM.GeneralizedLinearModelAlgorithm.Run: inherits both StoreEstimates
  limits above.
- Factorization.LogDeterminant: on the hierarchical path the source loops
  over the residual's size rather than the factor's. The model loops over
  the factor's diagonal; the two sizes agree whenever the solve is
  consistent.
- Likelihood.Conclude: states nothing of the likelihood value with an
  analytical amplitude beyond what ReducedLogLikelihood states.

## Findings

| source | as written | input that shows it | evidently intended | confidence | as-written member | corrected member |
|---|---|---|---|---|---|---|
| lib/src/Uncertainty/Algorithm/MetaModel/Kriging/GeneralizedLinearModelAlgorithm.cxx:818 | after the retry loop the error is raised when the final `scaling >= maximalScaling` (the same test is at line 907) | starting scaling 1, maximal scaling 8, first three attempts fail, fourth succeeds: cumulated 7 < 8, so the loop ends on success, but scaling is 8 and the call throws | throw only when no factorisation was found, i.e. the loop ended with `cumulatedScaling >= maximalScaling` | high, not executed | Factorization.RaisesAsWrittenAfterSuccess | Likelihood.AttemptedStops |
| lib/src/Uncertainty/Algorithm/MetaModel/Kriging/GeneralizedLinearModelAlgorithm.cxx:793 | `C(i, i) += noise_[i]` for every `i < C.getDimension()`, while `noise_` holds one value per sample point and C has one row per point and output marginal | 2 sample points, output dimension 2, noise `[a, b]`: C has 4 rows and the loop reads `noise_[2]` | add point i's noise on the diagonal entries of each of its marginals, rows `k + i*d` | medium, not executed | Factorization.NoiseAsWrittenOutOfRange | Factorization.NoiseDiagonal |

The as-written test of the first row is `Factorization.RaisesAsWritten`.
`Factorization.RaisesAsWrittenCoversFailure` shows it still throws whenever
the intended test does. The model raises with `Factorization.Raises`, that
is, when no factor was found. The as-written noise diagonal of the second
row is `Factorization.NoiseDiagonalAsWritten`, which needs as many noise
values as C has rows. `Factorization.NoiseDiagonalScalar` shows the two
readings agree for a single output marginal. The dense evaluation adds
`Factorization.NoiseDiagonal`.
