/** The fitting engine of the generalized linear model: data and covariance
    model set-up, the reduced log-likelihood evaluation around the
    factorisation of the covariance matrix, the optimiser-driving flow and
    the assembly of the result.  Everything numerical (discretisation,
    factorisation, triangular solves, logarithms, the optimiser itself) is
    supplied by records of functions. */
module GLM {
  import opened Common
  import opened CovarianceModels
  import opened Design
  import opened Factorization
  import opened Likelihood
  import Optim

  /** The optimisation solver; DefaultSolver is a default-constructed one. */
  datatype Solver = DefaultSolver | TNC | NLopt(algorithm: string)

  /** initializeDefaultOptimizationSolver's table of solver names. */
  function SolverNamed(name: string): (r: Result<Solver>)
    ensures r.Ok? <==> name in ["TNC", "NELDER-MEAD", "LBFGS"]
    ensures r.Err? ==> r.error == InvalidArgument
    ensures r.Ok? ==> r.value != DefaultSolver
    ensures name == "NELDER-MEAD" ==> r == Ok(NLopt("LN_NELDERMEAD"))
    ensures name == "LBFGS" ==> r == Ok(NLopt("LD_LBFGS"))
  {
    if name == "TNC" then Ok(TNC)
    else if name == "NELDER-MEAD" then Ok(NLopt("LN_NELDERMEAD"))
    else if name == "LBFGS" then Ok(NLopt("LD_LBFGS"))
    else Err(InvalidArgument)
  }

  /** A function from R^inputDimension to R^outputDimension applied point
      by point; the input transformation of the engine. */
  datatype Transformation = Transformation(inputDimension: nat, outputDimension: nat, apply: Point -> Point)

  function Identity(d: nat): Transformation {
    Transformation(d, d, p => p)
  }

  /** The transformation applied to every point of a sample. */
  function Transform(t: Transformation, s: Sample): (r: Sample)
    ensures r.dimension == t.outputDimension && r.Size() == s.Size()
    ensures forall i :: 0 <= i < s.Size() ==> r.points[i] == t.apply(s.points[i])
  {
    Sample(t.outputDimension, seq(|s.points|, i requires 0 <= i < |s.points| => t.apply(s.points[i])))
  }

  /** The identity leaves a sample's points as they are. */
  lemma TransformIdentity(s: Sample)
    ensures Transform(Identity(s.dimension), s) == s
  {
    var r := Transform(Identity(s.dimension), s);
    assert r.points == s.points;
  }

  /** What a run of the optimiser reports: the points at which it asked for
      the objective, in order, and the optimum it found. */
  datatype SolverRun = SolverRun(evaluations: seq<Point>, optimalPoint: Point, optimalValue: real)

  /** The engine's statistical collaborators: the standardisation of a
      sample and the optimiser run on a problem from a starting point. */
  datatype Services = Services(
    standardize: Sample -> Transformation,
    optimize: (Solver, Optim.ProblemState, Point) -> SolverRun)
  {
    /** The standardisation is a map of the sample's space into itself,
        as the LinearFunction the constructors build is. */
    ghost predicate StandardizeKeepsDimension() {
      forall s: Sample :: standardize(s).inputDimension == s.dimension && standardize(s).outputDimension == s.dimension
    }
  }

  /** What run() stores: the trend coefficients (one vector per marginal,
      and as a sample), the reduced covariance model, the optimal
      log-likelihood, the factors when they are kept, and the input
      transformation when the data are normalised. */
  datatype GLMResult = GLMResult(
    inputSample: Sample,
    outputSample: Sample,
    basisCollection: seq<Basis>,
    trendCoefficients: seq<seq<real>>,
    trendCoefficientsSample: Matrix,
    covarianceModel: CovarianceModel,
    optimalLogLikelihood: real,
    choleskyFactor: Option<Triangular>,
    hmatFactor: Option<Triangular>,
    transformation: Option<Transformation>)

  // -----------------------------------------------------------------------
  // setCovarianceModel as a function.

  /** The bounds setCovarianceModel builds for n parameters. */
  function DefaultBounds(n: nat, cfg: Config): (b: Interval)
    ensures b.Dimension() == n
    ensures n > 0 ==> b.lowerBound == Constant(n, cfg.lowerBound) && b.upperBound == Constant(n, cfg.upperBound)
    ensures n == 0 ==> b == EmptyInterval
  {
    if n > 0 then Interval(Constant(n, cfg.lowerBound), Constant(n, cfg.upperBound)) else EmptyInterval
  }

  /** The adapted model, its reduced working copy, the analytical-amplitude
      flag and the default bounds. */
  datatype CovarianceSetup = CovarianceSetup(
    model: CovarianceModel,
    reduced: CovarianceModel,
    analyticalAmplitude: bool,
    bounds: Interval)

  /** setCovarianceModel: adapt the model to the problem's dimensions,
      reduce its active parameters, size the bounds to what remains. */
  function SetupCovariance(m: CovarianceModel, inputDim: nat, outputDim: nat, optimize: bool,
                           cfg: Config, c: Composer): (r: Result<CovarianceSetup>)
    requires m.WellFormed() && ComposerValid(c)
    ensures r.Ok? <==> Adapt(m, inputDim, outputDim, c).Ok?
    ensures r.Err? ==> r.error == InvalidArgument
    ensures r.Ok? ==>
      && r.value.model == Adapt(m, inputDim, outputDim, c).value
      && r.value.model.WellFormed() && r.value.reduced.WellFormed()
      && r.value.reduced.SpatialDimension() == inputDim && r.value.reduced.Dimension() == outputDim
      && r.value.bounds.Dimension() == r.value.reduced.ParameterSize()
      && (!optimize ==> r.value.reduced.ParameterSize() == 0 && !r.value.analyticalAmplitude)
  {
    match Adapt(m, inputDim, outputDim, c)
    case Err(e) => Err(e)
    case Ok(adapted) =>
      var red := Reduce(adapted, optimize, cfg.useAnalyticalAmplitude);
      Ok(CovarianceSetup(adapted, red.model, red.analyticalAmplitude,
                         DefaultBounds(red.model.ParameterSize(), cfg)))
  }

  /** Setting the adapted model again (as setOptimizeParameters does)
      gives the same set-up as setting the original model: flipping the
      flag twice restores the reduced model and the bounds. */
  lemma SetupOfAdapted(m: CovarianceModel, inputDim: nat, outputDim: nat, optimize: bool,
                       cfg: Config, c: Composer)
    requires m.WellFormed() && ComposerValid(c) && Adapt(m, inputDim, outputDim, c).Ok?
    ensures Adapt(m, inputDim, outputDim, c).value.WellFormed()
    ensures SetupCovariance(Adapt(m, inputDim, outputDim, c).value, inputDim, outputDim, optimize, cfg, c)
         == SetupCovariance(m, inputDim, outputDim, optimize, cfg, c)
  {
    var a := Adapt(m, inputDim, outputDim, c).value;
    assert SameShape(a, inputDim, outputDim);
  }

  // -----------------------------------------------------------------------
  // The optimiser-driving flow as functions.

  /** The points of s in the order of their first occurrence: the points
      at which a cached objective actually computes. */
  function FirstOccurrences(s: seq<Point>): (r: seq<Point>)
    ensures forall p :: p in r <==> p in s
    ensures |r| <= |s|
  {
    if s == [] then []
    else
      var r := FirstOccurrences(s[..|s| - 1]);
      if s[|s| - 1] in s[..|s| - 1] then r else r + [s[|s| - 1]]
  }

  /** A point not requested before is a new first occurrence. */
  lemma FirstOccurrencesNew(s: seq<Point>, i: nat)
    requires i < |s| && s[i] !in s[..i]
    ensures FirstOccurrences(s[..i + 1]) == FirstOccurrences(s[..i]) + [s[i]]
  {
    assert s[..i + 1][..i] == s[..i];
  }

  /** A point requested before adds no first occurrence. */
  lemma FirstOccurrencesRepeat(s: seq<Point>, i: nat)
    requires i < |s| && s[i] in s[..i]
    ensures FirstOccurrences(s[..i + 1]) == FirstOccurrences(s[..i])
  {
    assert s[..i + 1][..i] == s[..i];
  }

  /** Adding request i to a cache of the requests before it gives a cache
      of the requests up to i. */
  lemma CacheStep(requests: seq<Point>, i: nat, cache: set<Point>)
    requires i < |requests| && forall p :: p in cache <==> p in requests[..i]
    ensures requests[i] in cache <==> requests[i] in requests[..i]
    ensures forall p :: p in cache + {requests[i]} <==> p in requests[..i + 1]
  {
    assert requests[..i + 1] == requests[..i] + [requests[i]];
  }

  /** Evaluating request i exactly when it is new keeps a record of the
      first occurrences so far. */
  lemma RecordStep(before: seq<Point>, requests: seq<Point>, i: nat, e0: seq<Point>, e1: seq<Point>)
    requires i < |requests| && e0 == before + FirstOccurrences(requests[..i])
    requires requests[i] in requests[..i] ==> e1 == e0
    requires requests[i] !in requests[..i] ==> e1 == e0 + [requests[i]]
    ensures e1 == before + FirstOccurrences(requests[..i + 1])
  {
    if requests[i] in requests[..i] {
      FirstOccurrencesRepeat(requests, i);
    } else {
      FirstOccurrencesNew(requests, i);
    }
  }

  /** The first occurrences in a prefix begin those of the whole. */
  lemma {:induction false} FirstOccurrencesPrefix(s: seq<Point>, n: nat) returns (rest: seq<Point>)
    requires n <= |s|
    ensures FirstOccurrences(s) == FirstOccurrences(s[..n]) + rest
    decreases |s|
  {
    if n == |s| {
      assert s[..n] == s;
      rest := [];
    } else {
      var t := s[..|s| - 1];
      assert t[..n] == s[..n];
      var r := FirstOccurrencesPrefix(t, n);
      rest := if s[|s| - 1] in t then r else r + [s[|s| - 1]];
    }
  }

  /** A cached objective never computes the same point twice. */
  lemma {:induction false} FirstOccurrencesDistinct(s: seq<Point>)
    ensures forall i, j :: 0 <= i < j < |FirstOccurrences(s)| ==>
              FirstOccurrences(s)[i] != FirstOccurrences(s)[j]
  {
    if s != [] {
      FirstOccurrencesDistinct(s[..|s| - 1]);
    }
  }

  /** The problem maximizeReducedLogLikelihood hands to the solver: the
      objective of n parameters, no constraints, the optimisation bounds,
      maximisation. */
  function LikelihoodProblem(n: nat, bounds: Interval): (p: Optim.ProblemState)
    ensures p.dimension == n && !p.minimization && p.bounds == bounds
    ensures p.objective.InputDimension() == n && p.objective.OutputDimension() == 1
  {
    Optim.ProblemState(Optim.User("ReducedLogLikelihood", n, 1), Optim.Default, Optim.Default,
                       bounds, Optim.Default, 0.0, false, n)
  }

  /** maximizeReducedLogLikelihood's problem, built through the
      OptimizationProblem setters: objective, maximisation, bounds.
      Bounds of the parameters' dimension are always accepted. */
  method BuildLikelihoodProblem(n: nat, bounds: Interval) returns (r: Result<Optim.ProblemState>)
    ensures bounds.Dimension() == n ==> r.Ok?
    ensures r.Ok? ==> r.value == LikelihoodProblem(n, bounds)
    ensures r.Err? ==> r.error == InvalidArgument
  {
    var problem := new Optim.OptimizationProblem();
    problem.SetObjective(Optim.User("ReducedLogLikelihood", n, 1));
    problem.SetMinimization(false);
    var o := problem.SetBounds(bounds);
    if o.Fail? { return Err(o.error); }
    return Ok(problem.State());
  }

  /** The model a likelihood evaluation works with: amplitude 1 when the
      amplitude is analytical, then the given parameters. */
  function ParametrizedModel(m: CovarianceModel, analytical: bool, p: seq<real>): (r: CovarianceModel)
    requires m.WellFormed() && |p| == m.ParameterSize()
    ensures r.WellFormed() && r.Parameter() == p && r.layout.active == m.layout.active
    ensures r.SpatialDimension() == m.SpatialDimension() && r.Dimension() == m.Dimension()
    ensures analytical ==> r.layout.amplitude == [1.0]
    ensures !analytical ==> r.layout.amplitude == m.layout.amplitude
  {
    var base := if analytical then m.SetAmplitude([1.0]) else m;
    base.SetParameter(p)
  }

  /** The basis argument of the parameter constructors: none, one basis
      shared by every output marginal, or one basis per marginal. */
  datatype BasisArgument = NoBasis | SharedBasis(basis: Basis) | BasisCollection(bases: seq<Basis>) {
    /** No basis, or an empty one: the constructors then leave the
        collection as it is. */
    predicate Empty() {
      NoBasis? || (SharedBasis? && basis == []) || (BasisCollection? && bases == [])
    }
  }

  /** The normalisation argument of the parameter constructors: the
      normalise flag (standardise the inputs when true), or a given input
      transformation. */
  datatype TransformationArgument = Standardize(normalize: bool) | Given(transformation: Transformation)

  /** The basis collection a constructor's basis argument stands for. */
  function BasisOf(basis: BasisArgument, outputDimension: nat): (bs: seq<Basis>)
    ensures basis.SharedBasis? && |basis.basis| > 0 ==>
              |bs| == outputDimension && forall k :: 0 <= k < |bs| ==> bs[k] == basis.basis
    ensures basis.BasisCollection? ==> bs == basis.bases
    ensures basis.NoBasis? || (basis.SharedBasis? && basis.basis == []) ==> bs == []
  {
    match basis
    case NoBasis => []
    case SharedBasis(b) => if |b| > 0 then seq(outputDimension, _ => b) else []
    case BasisCollection(bs) => bs
  }

  /** The input transformation a constructor's normalisation argument
      stands for. */
  function TransformationOf(t: TransformationArgument, sv: Services, input: Sample): Transformation {
    match t
    case Standardize(_) => sv.standardize(input)
    case Given(g) => g
  }

  /** What each likelihood evaluation refreshes: the factor of its
      backend (the other one is left as it was), the trend coefficients
      beta, the whitened residual rho, and the value. */
  datatype Fit = Fit(
    choleskyFactor: Triangular,
    hmatFactor: Triangular,
    beta: seq<real>,
    rho: seq<real>,
    lastReducedLogLikelihood: real)

  /** The model and the fit an evaluation leaves behind. */
  datatype Refitted = Refitted(model: CovarianceModel, fit: Fit)

  /** The evaluation step of computeReducedLogLikelihood on values: an
      error exactly when the regularisation ladder gives up; otherwise the
      factor the ladder ends with replaces the one of the backend in use
      (the other is kept), beta is the trend fit with that factor, and the
      model, residual and value are those of the amplitude step. */
  ghost function RefitOf(cfg: Config, nm: Numerics, backend: Backend, analytical: bool, size: nat, input: Inputs,
                         m: CovarianceModel, prior: Fit): (r: Result<Refitted>)
    requires cfg.startingScaling > 0.0 && m.WellFormed()
    ensures r.Err? <==> Raises(Attempted(cfg, nm, backend, input, m))
    ensures r.Err? ==> r.error == InvalidArgument
    ensures r.Ok? ==>
      var factor := if backend == Lapack then r.value.fit.choleskyFactor else r.value.fit.hmatFactor;
      && Some(factor) == FactorFound(cfg, nm, backend, input, m)
      && (backend == Lapack ==> r.value.fit.hmatFactor == prior.hmatFactor)
      && (backend == HMat ==> r.value.fit.choleskyFactor == prior.choleskyFactor)
      && r.value.fit.beta == FitOf(nm, input, factor).beta
      && (!analytical ==> r.value.model == m && r.value.fit.rho == FitOf(nm, input, factor).residual)
    ensures r.Ok? && input.hasTrend ==> |r.value.fit.beta| == input.columns
    ensures r.Ok? ==>
      var c := Conclude(cfg, nm, analytical, size, m, Evaluate(cfg, nm, backend, input, m).value);
      r.value.model == c.model && r.value.fit.rho == c.rho && r.value.fit.lastReducedLogLikelihood == c.value
    ensures r.Ok? ==> r.value.model.WellFormed() && r.value.model.layout.values == m.layout.values
    ensures r.Ok? ==> r.value.model.layout.active == m.layout.active
    ensures r.Ok? ==> r.value.model.Dimension() == m.Dimension() && r.value.model.ParameterSize() == m.ParameterSize()
  {
    match Evaluate(cfg, nm, backend, input, m)
    case Err(err) => Err(err)
    case Ok(e) =>
      var c := Conclude(cfg, nm, analytical, size, m, e);
      Ok(Refitted(c.model, Fit(if backend == Lapack then e.factor else prior.choleskyFactor,
                               if backend == HMat then e.factor else prior.hmatFactor,
                               e.beta, c.rho, c.value)))
  }

  /** The evaluation step as the source runs it, on the backend's own
      method. */
  method Refit(cfg: Config, nm: Numerics, backend: Backend, analytical: bool, size: nat, input: Inputs,
               m: CovarianceModel, prior: Fit) returns (r: Result<Refitted>)
    requires cfg.startingScaling > 0.0 && m.WellFormed()
    requires |input.noise| == 0 || |input.noise| == |input.points|
    ensures r == RefitOf(cfg, nm, backend, analytical, size, input, m, prior)
  {
    var e;
    if backend == Lapack {
      e := LapackLogDeterminantCholesky(cfg, nm, input, m);
    } else {
      e := HMatLogDeterminantCholesky(cfg, nm, input, m);
    }
    if e.Err? { return Err(e.error); }
    var c := Conclude(cfg, nm, analytical, size, m, e.value);
    var L, H := prior.choleskyFactor, prior.hmatFactor;
    if backend == Lapack { L := e.value.factor; } else { H := e.value.factor; }
    return Ok(Refitted(c.model, Fit(L, H, e.value.beta, c.rho, c.value)));
  }

  /** One objective evaluation at x on values, from the model and fit s:
      a vector of another size fails; otherwise the model takes the
      parameters and is refitted, the trend data carrying the current beta. */
  ghost function RefitAt(cfg: Config, nm: Numerics, backend: Backend, analytical: bool, size: nat, input: Inputs,
                         s: Refitted, x: Point): (r: Result<Refitted>)
    requires cfg.startingScaling > 0.0 && s.model.WellFormed()
    ensures |x| != s.model.ParameterSize() ==> r == Err(InvalidArgument)
    ensures r.Err? ==> r.error == InvalidArgument
    ensures r.Ok? ==> r.value.model.WellFormed() && r.value.model.Parameter() == x
    ensures r.Ok? ==> r.value.model.ParameterSize() == s.model.ParameterSize() && r.value.model.Dimension() == s.model.Dimension()
  {
    if |x| != s.model.ParameterSize() then Err(InvalidArgument)
    else
      var m := ParametrizedModel(s.model, analytical, x);
      RefitOf(cfg, nm, backend, analytical, size, input.(beta := s.fit.beta), m, s.fit)
  }

  /** Objective evaluations at the points in order, each starting from
      what the previous one left behind; the first failure ends them. */
  ghost function Replayed(cfg: Config, nm: Numerics, backend: Backend, analytical: bool, size: nat, input: Inputs,
                          s: Refitted, points: seq<Point>): (r: Result<Refitted>)
    requires cfg.startingScaling > 0.0 && s.model.WellFormed()
    ensures r.Ok? ==> r.value.model.WellFormed()
    ensures r.Ok? ==> r.value.model.ParameterSize() == s.model.ParameterSize() && r.value.model.Dimension() == s.model.Dimension()
    ensures r.Err? ==> r.error == InvalidArgument
    decreases |points|
  {
    if points == [] then Ok(s)
    else match Replayed(cfg, nm, backend, analytical, size, input, s, points[..|points| - 1])
      case Err(e) => Err(e)
      case Ok(t) => RefitAt(cfg, nm, backend, analytical, size, input, t, points[|points| - 1])
  }

  /** A replay of one point is the evaluation at that point. */
  lemma ReplayedSingle(cfg: Config, nm: Numerics, backend: Backend, analytical: bool, size: nat, input: Inputs,
                       s: Refitted, x: Point)
    requires cfg.startingScaling > 0.0 && s.model.WellFormed()
    ensures Replayed(cfg, nm, backend, analytical, size, input, s, [x]) ==
            RefitAt(cfg, nm, backend, analytical, size, input, s, x)
  {
    assert [x][..0] == [];
  }

  /** Replaying one more point evaluates it where the replay left off. */
  lemma ReplayedExtend(cfg: Config, nm: Numerics, backend: Backend, analytical: bool, size: nat, input: Inputs,
                       s: Refitted, points: seq<Point>, x: Point)
    requires cfg.startingScaling > 0.0 && s.model.WellFormed()
    requires Replayed(cfg, nm, backend, analytical, size, input, s, points).Ok?
    ensures Replayed(cfg, nm, backend, analytical, size, input, s, points + [x]) ==
            RefitAt(cfg, nm, backend, analytical, size, input,
                    Replayed(cfg, nm, backend, analytical, size, input, s, points).value, x)
  {
    assert (points + [x])[..|points|] == points;
  }

  /** A non-empty sequence, and any sequence ending with it, split before
      their last element. */
  lemma SplitLast<T>(xs: seq<T>, ys: seq<T>)
    requires |ys| > 0
    ensures ys == ys[..|ys| - 1] + [ys[|ys| - 1]]
    ensures xs + ys == (xs + ys[..|ys| - 1]) + [ys[|ys| - 1]]
  {
  }

  /** A replay of xs + ys is the replay of ys from where xs left off. */
  lemma {:induction false} ReplayedAppend(cfg: Config, nm: Numerics, backend: Backend, analytical: bool,
                                          size: nat, input: Inputs, s: Refitted, xs: seq<Point>, ys: seq<Point>)
    requires cfg.startingScaling > 0.0 && s.model.WellFormed()
    requires Replayed(cfg, nm, backend, analytical, size, input, s, xs).Ok?
    ensures var t := Replayed(cfg, nm, backend, analytical, size, input, s, xs).value;
      Replayed(cfg, nm, backend, analytical, size, input, s, xs + ys) ==
      Replayed(cfg, nm, backend, analytical, size, input, t, ys)
    decreases |ys|
  {
    if ys != [] {
      var zs, y := ys[..|ys| - 1], ys[|ys| - 1];
      var t := Replayed(cfg, nm, backend, analytical, size, input, s, xs).value;
      ReplayedAppend(cfg, nm, backend, analytical, size, input, s, xs, zs);
      SplitLast(xs, ys);
      if Replayed(cfg, nm, backend, analytical, size, input, t, zs).Ok? {
        ReplayedExtend(cfg, nm, backend, analytical, size, input, s, xs + zs, y);
        ReplayedExtend(cfg, nm, backend, analytical, size, input, t, zs, y);
      } else {
        ReplayedFailureSticks(cfg, nm, backend, analytical, size, input, s, xs + zs, [y]);
        ReplayedFailureSticks(cfg, nm, backend, analytical, size, input, t, zs, [y]);
      }
    } else {
      assert xs + ys == xs;
    }
  }

  /** Once an evaluation fails, later points change nothing: the replay
      fails. */
  lemma {:induction false} ReplayedFailureSticks(cfg: Config, nm: Numerics, backend: Backend, analytical: bool,
                                                 size: nat, input: Inputs, s: Refitted, xs: seq<Point>, ys: seq<Point>)
    requires cfg.startingScaling > 0.0 && s.model.WellFormed()
    requires Replayed(cfg, nm, backend, analytical, size, input, s, xs).Err?
    ensures Replayed(cfg, nm, backend, analytical, size, input, s, xs + ys).Err?
    decreases |ys|
  {
    if ys != [] {
      var zs := ys[..|ys| - 1];
      ReplayedFailureSticks(cfg, nm, backend, analytical, size, input, s, xs, zs);
      assert (xs + ys)[..|xs + ys| - 1] == xs + zs;
    } else {
      assert xs + ys == xs;
    }
  }

  /** The result run() builds once the likelihood is maximised: the
      trend coefficients cut into one vector per marginal (which put back
      together give beta) and laid out as a sample, the factors when they
      are kept, and the transformation when the data are normalised. */
  function ResultOf(input: Sample, output: Sample, bs: seq<Basis>, f: Fit, model: CovarianceModel,
                    optimal: real, keep: bool, transformation: Option<Transformation>): (res: GLMResult)
    requires TotalSize(bs) <= |f.beta|
    ensures res.inputSample == input && res.outputSample == output && res.basisCollection == bs
    ensures res.covarianceModel == model && res.optimalLogLikelihood == optimal
    ensures |res.trendCoefficients| == |bs|
    ensures forall k :: 0 <= k < |bs| ==> res.trendCoefficients[k] == Slice(f.beta, bs, k)
    ensures |res.trendCoefficientsSample| == |f.beta|
    ensures forall c, k :: 0 <= c < |f.beta| && 0 <= k < model.Dimension() ==>
              k < |res.trendCoefficientsSample[c]| &&
              res.trendCoefficientsSample[c][k] == CoefficientEntry(f.beta, bs, c, k)
    ensures res.choleskyFactor == (if keep then Some(f.choleskyFactor) else None)
    ensures res.hmatFactor == (if keep then Some(f.hmatFactor) else None)
    ensures res.transformation == transformation
  {
    GLMResult(input, output, bs, Slices(f.beta, bs), CoefficientRows(f.beta, bs, model.Dimension()), model, optimal,
              if keep then Some(f.choleskyFactor) else None, if keep then Some(f.hmatFactor) else None,
              transformation)
  }

  /** Put back together, the per-marginal trend coefficients of a result
      give beta when the bases account for all of it. */
  lemma ResultCoefficients(input: Sample, output: Sample, bs: seq<Basis>, f: Fit, model: CovarianceModel,
                           optimal: real, keep: bool, transformation: Option<Transformation>)
    requires TotalSize(bs) == |f.beta|
    ensures Concat(ResultOf(input, output, bs, f, model, optimal, keep, transformation).trendCoefficients) == f.beta
  {
    ConcatSlices(f.beta, bs);
  }

  /** A sample whose entries are the coefficient layout is that layout. */
  lemma SampleRows(sample: array2<real>, beta: seq<real>, bs: seq<Basis>, modelDim: nat)
    requires sample.Length0 == |beta| && sample.Length1 == modelDim
    requires forall c, k :: 0 <= c < |beta| && 0 <= k < modelDim ==> sample[c, k] == CoefficientEntry(beta, bs, c, k)
    ensures Rows(sample) == CoefficientRows(beta, bs, modelDim)
  {
    var R, C := Rows(sample), CoefficientRows(beta, bs, modelDim);
    forall c | 0 <= c < |beta| ensures R[c] == C[c] {
      assert |R[c]| == |C[c]|;
    }
  }

  /** The empty factor of a default-constructed engine. */
  const NoFactor: Triangular := Triangular(0, (_, _) => 0.0)

  /** The model that stands for the default-constructed covariance model
      until setCovarianceModel replaces it. */
  const Placeholder: CovarianceModel := CovarianceModels.Given(0, 0, Layout([], [], [], []))

  class GeneralizedLinearModelAlgorithm {
    const config: Config
    const numerics: Numerics
    const services: Services
    const composer: Composer

    var inputSample: Sample
    var normalizedInputSample: Sample
    var outputSample: Sample
    var inputTransformation: Transformation
    var normalize: bool
    var covarianceModel: CovarianceModel
    var reducedCovarianceModel: CovarianceModel
    var solver: Solver
    var optimizationBounds: Interval
    var F: array2<real>
    var result: Option<GLMResult>
    var basisCollection: seq<Basis>
    var keepCholeskyFactor: bool
    var backend: Backend
    var hasRun: bool
    var optimizeParameters: bool
    var analyticalAmplitude: bool
    var noise: seq<real>
    var fit: Fit
    /** The parameter vectors at which the reduced log-likelihood was
        computed, in order, and the number of optimiser runs. */
    ghost var evaluated: seq<Point>
    ghost var solverRuns: nat

    /** What every operation keeps: well-formed models, bounds as large as
        the reduced parameter vector, samples of one size, and a result
        once run() has completed. */
    ghost predicate Valid()
      reads this`covarianceModel, this`reducedCovarianceModel, this`optimizationBounds,
            this`inputSample, this`outputSample, this`hasRun, this`result
    {
      && config.startingScaling > 0.0
      && covarianceModel.WellFormed() && reducedCovarianceModel.WellFormed()
      && optimizationBounds.Dimension() == reducedCovarianceModel.ParameterSize()
      && inputSample.Size() == outputSample.Size()
      && (hasRun ==> result.Some?)
    }

    /** The stored data fit together: a basis per output marginal (or
        none), noise of the sample's size (or none), and caches that were
        computed from the current data. */
    ghost predicate DataFits()
      reads this`basisCollection, this`outputSample, this`noise, this`inputSample,
            this`normalizedInputSample, this`F
    {
      && BasisFits(basisCollection, outputSample.dimension)
      && (|noise| == 0 || |noise| == inputSample.Size())
      && (normalizedInputSample.Size() == 0 || normalizedInputSample.Size() == inputSample.Size())
      && (F.Length0 == 0 || F.Length1 == TotalSize(basisCollection))
    }

    /** What a fit needs of the stored data on top of Valid(): data that
        fit together, and a model adapted to the output dimension. */
    ghost predicate Consistent()
      reads this`basisCollection, this`outputSample, this`noise, this`inputSample,
            this`normalizedInputSample, this`F, this`reducedCovarianceModel
    {
      DataFits() && reducedCovarianceModel.Dimension() == outputSample.dimension
    }

    /** With a trend, the stored beta has one coefficient per column of
        the design matrix. */
    ghost predicate TrendSized()
      reads this`basisCollection, this`fit, this`F
    {
      |basisCollection| > 0 ==> |fit.beta| == F.Length1
    }

    /** What a likelihood evaluation reads of the engine: the normalised
        sample, the noise, the output data as one vector, the design
        matrix, whether there is a trend, and beta. */
    function EvaluationInputs(): Inputs
      reads this`normalizedInputSample, this`noise, this`outputSample, this`F, this`basisCollection, this`fit, F
    {
      Inputs(normalizedInputSample.points, noise, Flatten(outputSample.points), Rows(F), F.Length1,
             |basisCollection| > 0, fit.beta)
    }

    /** Objective evaluations at the points from the model and fit s, on
        the engine's data and settings (each evaluation brings its own
        beta). */
    ghost function ReplayFrom(s: Refitted, points: seq<Point>): Result<Refitted>
      reads this`normalizedInputSample, this`noise, this`outputSample, this`F, this`basisCollection, F,
            this`backend, this`analyticalAmplitude, this`inputSample
      requires config.startingScaling > 0.0 && s.model.WellFormed()
    {
      Replayed(config, numerics, backend, analyticalAmplitude, inputSample.Size(), DataInputs(), s, points)
    }

    /** The trend data of an evaluation without its beta. */
    ghost function DataInputs(): Inputs
      reads this`normalizedInputSample, this`noise, this`outputSample, this`F, this`basisCollection, F
    {
      Inputs(normalizedInputSample.points, noise, Flatten(outputSample.points), Rows(F), F.Length1,
             |basisCollection| > 0, [])
    }

    /** A replay of one point is the evaluation the engine would run on
        its current data. */
    lemma ReplayOne(x: Point)
      requires config.startingScaling > 0.0 && reducedCovarianceModel.WellFormed()
      ensures |x| != reducedCovarianceModel.ParameterSize() ==> ReplayFrom(Current(), [x]) == Err(InvalidArgument)
      ensures |x| == reducedCovarianceModel.ParameterSize() ==>
              ReplayFrom(Current(), [x]) ==
              RefitOf(config, numerics, backend, analyticalAmplitude, inputSample.Size(), EvaluationInputs(),
                      ParametrizedModel(reducedCovarianceModel, analyticalAmplitude, x), fit)
    {
      ReplayedSingle(config, numerics, backend, analyticalAmplitude, inputSample.Size(), DataInputs(), Current(), x);
      assert DataInputs().(beta := fit.beta) == EvaluationInputs();
    }

    /** The covariance set-up as it stands. */
    ghost function Setup(): CovarianceSetup
      reads this`covarianceModel, this`reducedCovarianceModel, this`analyticalAmplitude, this`optimizationBounds
    {
      CovarianceSetup(covarianceModel, reducedCovarianceModel, analyticalAmplitude, optimizationBounds)
    }

    /** The working model and the fit as they stand. */
    ghost function Current(): Refitted
      reads this`reducedCovarianceModel, this`fit
    {
      Refitted(reducedCovarianceModel, fit)
    }

    /** The initialiser lists of the constructors. */
    constructor Init(cfg: Config, nm: Numerics, sv: Services, c: Composer, input: Sample, normalized: Sample,
                     output: Sample, normalizeFlag: bool, keep: bool, optimize: bool)
      requires ComposerValid(c) && cfg.startingScaling > 0.0
      requires input.Size() == output.Size()
      ensures Valid() && fresh(F)
      ensures config == cfg && numerics == nm && services == sv && composer == c
      ensures inputSample == input && normalizedInputSample == normalized && outputSample == output
      ensures inputTransformation == Identity(0) && normalize == normalizeFlag
      ensures covarianceModel == Placeholder && reducedCovarianceModel == Placeholder
      ensures solver == DefaultSolver && optimizationBounds == EmptyInterval
      ensures F.Length0 == 0 && F.Length1 == 0 && result == None
      ensures basisCollection == [] && fit == Fit(NoFactor, NoFactor, [], [], cfg.logMin)
      ensures keepCholeskyFactor == keep && backend == Lapack && !hasRun
      ensures optimizeParameters == optimize && !analyticalAmplitude && noise == []
      ensures evaluated == [] && solverRuns == 0
    {
      config, numerics, services, composer := cfg, nm, sv, c;
      inputSample, normalizedInputSample, outputSample := input, normalized, output;
      inputTransformation := Identity(0);
      normalize := normalizeFlag;
      covarianceModel, reducedCovarianceModel := Placeholder, Placeholder;
      solver := DefaultSolver;
      optimizationBounds := EmptyInterval;
      F := new real[0, 0];
      result := None;
      basisCollection := [];
      fit := Fit(NoFactor, NoFactor, [], [], cfg.logMin);
      keepCholeskyFactor := keep;
      backend := Lapack;
      hasRun := false;
      optimizeParameters := optimize;
      analyticalAmplitude := false;
      noise := [];
      evaluated := [];
      solverRuns := 0;
    }

    /** Default constructor: empty samples of dimension 1, the default
        covariance model, optimisation on, then the default solver. */
    static method CreateDefault(cfg: Config, nm: Numerics, sv: Services, c: Composer, defaultModel: CovarianceModel)
      returns (r: Result<GeneralizedLinearModelAlgorithm>)
      requires ComposerValid(c) && cfg.startingScaling > 0.0
      requires defaultModel.WellFormed()
      ensures r.Ok? ==> r.value.config == cfg && r.value.numerics == nm && r.value.services == sv && r.value.composer == c
      ensures r.Ok? ==> fresh(r.value) && r.value.Valid() && r.value.Consistent()
      ensures r.Ok? ==> r.value.backend == Lapack && r.value.optimizeParameters && !r.value.hasRun
      ensures r.Ok? <==>
        SetupCovariance(defaultModel, 1, 1, true, cfg, c).Ok? && SolverNamed(cfg.solverName).Ok?
      ensures r.Ok? ==> r.value.solver == SolverNamed(cfg.solverName).value
    {
      var a := new GeneralizedLinearModelAlgorithm.Init(cfg, nm, sv, c, Sample(1, []), Sample(1, []),
                                                        Sample(1, []), false, false, true);
      var o := a.SetDefaults(defaultModel);
      if o.Fail? { return Err(o.error); }
      return Ok(a);
    }

    /** The body of the default constructor: the default covariance
        model, then the default solver. */
    method SetDefaults(model: CovarianceModel) returns (o: Outcome)
      requires Valid() && model.WellFormed() && ComposerValid(composer)
      requires DataFits()
      modifies this`covarianceModel, this`reducedCovarianceModel, this`analyticalAmplitude,
               this`optimizationBounds, this`solver
      ensures Valid()
      ensures o.Fail? ==> o.error == InvalidArgument
      ensures o.Pass? <==>
        SetupCovariance(model, inputSample.dimension, outputSample.dimension, optimizeParameters, config, composer).Ok?
        && SolverNamed(config.solverName).Ok?
      ensures o.Pass? ==> Consistent() && solver == SolverNamed(config.solverName).value
    {
      o := SetCovarianceModel(model);
      if o.Fail? { return; }
      o := InitializeDefaultOptimizationSolver();
    }

    /** The parameter constructors: set the data and the covariance model,
        then the basis, then the normalisation, then the backend and the
        default solver.  NoBasis/SharedBasis/BasisCollection and
        Standardize/Given select among the five C++ signatures. */
    static method Create(cfg: Config, nm: Numerics, sv: Services, c: Composer, input: Sample, output: Sample,
                         model: CovarianceModel, basis: BasisArgument, transformation: TransformationArgument,
                         keep: bool)
      returns (r: Result<GeneralizedLinearModelAlgorithm>)
      requires ComposerValid(c) && cfg.startingScaling > 0.0
      requires model.WellFormed()
      ensures r.Ok? ==> r.value.config == cfg && r.value.numerics == nm && r.value.services == sv && r.value.composer == c
      ensures r.Ok? ==> fresh(r.value) && r.value.Valid() && r.value.Consistent() && !r.value.hasRun
      ensures r.Ok? ==> r.value.inputSample == input && r.value.outputSample == output
      ensures r.Ok? ==> r.value.normalize == (transformation.Given? || transformation.normalize)
      ensures r.Ok? ==> r.value.keepCholeskyFactor == keep
      ensures r.Ok? ==> r.value.backend == (if cfg.linearAlgebra == "HMAT" then HMat else Lapack)
      ensures input.Size() != output.Size() ==> r == Err(InvalidArgument)
      ensures r.Err? && r.error == InvalidDimension ==> transformation.Given? || !sv.StandardizeKeepsDimension()
      ensures r.Ok? ==> SetupCovariance(model, input.dimension, output.dimension, cfg.optimizeParameters, cfg, c).Ok?
      ensures r.Ok? ==> SolverNamed(cfg.solverName).Ok? && r.value.solver == SolverNamed(cfg.solverName).value
      ensures r.Ok? ==> r.value.basisCollection == BasisOf(basis, output.dimension)
      ensures r.Ok? ==>
        var setup := SetupCovariance(model, input.dimension, output.dimension, cfg.optimizeParameters, cfg, c).value;
        && r.value.covarianceModel == setup.model && r.value.reducedCovarianceModel == setup.reduced
        && r.value.analyticalAmplitude == setup.analyticalAmplitude && r.value.optimizationBounds == setup.bounds
    {
      var normalizeFlag := transformation.Given? || transformation.normalize;
      ghost var s := SetupCovariance(model, input.dimension, output.dimension, cfg.optimizeParameters, cfg, c);
      r := WithData(cfg, nm, sv, c, input, output, model, normalizeFlag, keep);
      if r.Err? { return; }
      var a := r.value;
      assert a.Setup() == s.value;
      var o := a.FinishConstruction(basis, transformation);
      if o.Fail? { return Err(o.error); }
    }

    /** The first steps of the parameter constructors: the initialiser
        list, setData, then setCovarianceModel. */
    static method WithData(cfg: Config, nm: Numerics, sv: Services, c: Composer, input: Sample, output: Sample,
                           model: CovarianceModel, normalizeFlag: bool, keep: bool)
      returns (r: Result<GeneralizedLinearModelAlgorithm>)
      requires ComposerValid(c) && cfg.startingScaling > 0.0
      requires model.WellFormed()
      ensures input.Size() != output.Size() ==> r == Err(InvalidArgument)
      ensures r.Err? ==> r.error == InvalidArgument
      ensures r.Ok? ==>
        var a := r.value;
        var s := SetupCovariance(model, input.dimension, output.dimension, cfg.optimizeParameters, cfg, c);
        && fresh(a) && a.Valid() && a.Consistent() && !a.hasRun
        && a.config == cfg && a.numerics == nm && a.services == sv && a.composer == c
        && a.inputSample == input && a.outputSample == output && a.normalize == normalizeFlag
        && a.keepCholeskyFactor == keep && a.backend == Lapack && a.basisCollection == [] && a.F.Length0 == 0
        && s.Ok? && a.covarianceModel == s.value.model && a.reducedCovarianceModel == s.value.reduced
        && a.analyticalAmplitude == s.value.analyticalAmplitude && a.optimizationBounds == s.value.bounds
    {
      var a := new GeneralizedLinearModelAlgorithm.Init(cfg, nm, sv, c, Sample(0, []), Sample(input.dimension, []),
                                                        Sample(0, []), normalizeFlag, keep, cfg.optimizeParameters);
      var o := a.SetUp(input, output, model);
      if o.Fail? { return Err(o.error); }
      return Ok(a);
    }

    /** setData, then setCovarianceModel, on an engine without basis,
        noise or caches. */
    method SetUp(input: Sample, output: Sample, model: CovarianceModel) returns (o: Outcome)
      requires Valid() && model.WellFormed() && ComposerValid(composer)
      requires basisCollection == [] && noise == [] && normalizedInputSample.Size() == 0 && F.Length0 == 0
      modifies this`inputSample, this`outputSample, this`covarianceModel, this`reducedCovarianceModel,
               this`analyticalAmplitude, this`optimizationBounds
      ensures Valid()
      ensures input.Size() != output.Size() ==> o == Fail(InvalidArgument)
      ensures o.Fail? ==> o.error == InvalidArgument
      ensures o.Pass? ==>
        var s := SetupCovariance(model, input.dimension, output.dimension, optimizeParameters, config, composer);
        && Consistent() && inputSample == input && outputSample == output && s.Ok?
        && covarianceModel == s.value.model && reducedCovarianceModel == s.value.reduced
        && analyticalAmplitude == s.value.analyticalAmplitude && optimizationBounds == s.value.bounds
    {
      o := SetData(input, output);
      if o.Fail? { return; }
      o := SetCovarianceModel(model);
    }


    /** The steps of the parameter constructors after the data and the
        covariance model: basis, normalisation, backend, default solver. */
    method FinishConstruction(basis: BasisArgument, transformation: TransformationArgument) returns (o: Outcome)
      requires Valid() && Consistent() && F.Length0 == 0 && basisCollection == []
      modifies this`basisCollection, this`inputTransformation, this`normalize, this`backend, this`solver
      ensures Valid()
      ensures Setup() == old(Setup()) && hasRun == old(hasRun) && keepCholeskyFactor == old(keepCholeskyFactor)
      ensures inputSample == old(inputSample) && outputSample == old(outputSample)
      ensures o.Fail? ==> o.error == InvalidArgument || o.error == InvalidDimension
      ensures o.Fail? && o.error == InvalidDimension ==> transformation.Given? || !services.StandardizeKeepsDimension()
      ensures o.Pass? ==>
        && Consistent()
        && normalize == (old(normalize) || transformation != Standardize(false))
        && basisCollection == BasisOf(basis, outputSample.dimension)
        && backend == (if config.linearAlgebra == "HMAT" then HMat else old(backend))
        && SolverNamed(config.solverName).Ok? && solver == SolverNamed(config.solverName).value
    {
      o := SetInputs(basis, transformation);
      if o.Fail? { return; }
      o := InitializeEngine();
    }

    /** The basis step, then the normalisation step, of the parameter
        constructors. */
    method SetInputs(basis: BasisArgument, transformation: TransformationArgument) returns (o: Outcome)
      requires Valid() && Consistent() && F.Length0 == 0 && basisCollection == []
      modifies this`basisCollection, this`inputTransformation, this`normalize
      ensures Valid()
      ensures Setup() == old(Setup()) && hasRun == old(hasRun) && keepCholeskyFactor == old(keepCholeskyFactor)
      ensures inputSample == old(inputSample) && outputSample == old(outputSample)
      ensures o.Fail? ==> o.error == InvalidArgument || o.error == InvalidDimension
      ensures o.Fail? && o.error == InvalidDimension ==> transformation.Given? || !services.StandardizeKeepsDimension()
      ensures o.Pass? ==>
        && Consistent()
        && normalize == (old(normalize) || transformation != Standardize(false))
        && basisCollection == BasisOf(basis, outputSample.dimension)
    {
      o := SetBasisArgument(basis);
      if o.Fail? { return; }
      o := SetTransformationArgument(transformation);
    }

    /** The last two steps of the parameter constructors: the backend,
        then the default solver. */
    method InitializeEngine() returns (o: Outcome)
      modifies this`backend, this`solver
      ensures o.Fail? ==> o.error == InvalidArgument
      ensures backend == if config.linearAlgebra == "HMAT" then HMat else old(backend)
      ensures o.Pass? <==> SolverNamed(config.solverName).Ok?
      ensures o.Pass? ==> solver == SolverNamed(config.solverName).value
    {
      InitializeMethod();
      o := InitializeDefaultOptimizationSolver();
    }

    /** The basis step of the parameter constructors: a shared non-empty
        basis is copied for every output marginal without a check, a
        non-empty collection goes through setBasisCollection. */
    method SetBasisArgument(basis: BasisArgument) returns (o: Outcome)
      requires Valid()
      modifies this`basisCollection
      ensures o.Fail? ==> o.error == InvalidArgument && basisCollection == old(basisCollection)
      ensures basis.BasisCollection? && |basis.bases| > 0 ==>
                (o.Pass? <==> FirstFunctionDimension(basis.bases) > 0 && |basis.bases| == outputSample.dimension)
      ensures !(basis.BasisCollection? && |basis.bases| > 0) ==> o.Pass?
      ensures o.Pass? ==> basisCollection == if basis.Empty() then old(basisCollection)
                                             else BasisOf(basis, outputSample.dimension)
      ensures o.Pass? && old(Consistent()) && F.Length0 == 0 && old(basisCollection) == [] ==> Consistent()
    {
      o := Pass;
      match basis {
        case NoBasis =>
        case SharedBasis(b) =>
          if |b| > 0 {
            basisCollection := seq(outputSample.dimension, _ => b);
            assert basisCollection == BasisOf(basis, outputSample.dimension);
          }
        case BasisCollection(bs) =>
          if |bs| > 0 {
            o := SetBasisCollection(bs);
          }
      }
    }

    /** The normalisation step of the parameter constructors: the
        standardisation of the input sample when asked for, or the given
        transformation. */
    method SetTransformationArgument(t: TransformationArgument) returns (o: Outcome)
      modifies this`inputTransformation, this`normalize
      ensures o.Fail? ==> o.error == InvalidDimension && unchanged(this)
      ensures t == Standardize(false) ==> o.Pass? && unchanged(this)
      ensures t.Standardize? && services.StandardizeKeepsDimension() ==> o.Pass?
      ensures t.Given? ==> (o.Pass? <==> t.transformation.inputDimension == inputSample.dimension &&
                                         t.transformation.outputDimension == inputSample.dimension)
      ensures o.Pass? && t != Standardize(false) ==>
        inputTransformation == TransformationOf(t, services, inputSample) && normalize
    {
      match t {
        case Standardize(flag) =>
          if flag {
            o := SetInputTransformation(services.standardize(inputSample));
          } else {
            o := Pass;
          }
        case Given(g) =>
          o := SetInputTransformation(g);
      }
    }

    /** setData: both samples must have the same size. */
    method SetData(input: Sample, output: Sample) returns (o: Outcome)
      modifies this`inputSample, this`outputSample
      ensures o.Pass? <==> input.Size() == output.Size()
      ensures o.Fail? ==> o.error == InvalidArgument && unchanged(this)
      ensures o.Pass? ==> inputSample == input && outputSample == output
    {
      if input.Size() != output.Size() { return Fail(InvalidArgument); }
      inputSample := input;
      outputSample := output;
      return Pass;
    }

    /** setCovarianceModel: adapt the model, reduce it, size the bounds. */
    method SetCovarianceModel(model: CovarianceModel) returns (o: Outcome)
      requires Valid() && model.WellFormed()
      requires ComposerValid(composer)
      modifies this`covarianceModel, this`reducedCovarianceModel, this`analyticalAmplitude, this`optimizationBounds
      ensures Valid()
      ensures var s := SetupCovariance(model, inputSample.dimension, outputSample.dimension,
                                       optimizeParameters, config, composer);
        && (o.Pass? <==> s.Ok?)
        && (o.Fail? ==> o.error == InvalidArgument && unchanged(this))
        && (o.Pass? ==> && covarianceModel == s.value.model
                        && reducedCovarianceModel == s.value.reduced
                        && analyticalAmplitude == s.value.analyticalAmplitude
                        && optimizationBounds == s.value.bounds)
      ensures o.Pass? && DataFits() ==> Consistent()
    {
      ghost var s := SetupCovariance(model, inputSample.dimension, outputSample.dimension,
                                     optimizeParameters, config, composer);
      var adapted := Adapt(model, inputSample.dimension, outputSample.dimension, composer);
      if adapted.Err? { return Fail(adapted.error); }
      var reduced, analytical := ReduceModel(adapted.value, optimizeParameters, config.useAnalyticalAmplitude);
      var n := |reduced.Parameter()|;
      var bounds;
      if n > 0 {
        bounds := Interval(Constant(n, config.lowerBound), Constant(n, config.upperBound));
      } else {
        bounds := EmptyInterval;
      }
      assert s.value == CovarianceSetup(adapted.value, reduced, analytical, bounds);
      covarianceModel, reducedCovarianceModel, analyticalAmplitude, optimizationBounds :=
        adapted.value, reduced, analytical, bounds;
      return Pass;
    }


    /** setBasisCollection: one basis per output marginal, and a first
        non-empty marginal basis whose first function has a positive output
        dimension. */
    method SetBasisCollection(bs: seq<Basis>) returns (o: Outcome)
      modifies this`basisCollection
      ensures o.Pass? <==> FirstFunctionDimension(bs) > 0 && |bs| == outputSample.dimension
      ensures o.Fail? ==> o.error == InvalidArgument && unchanged(this)
      ensures o.Pass? ==> basisCollection == bs
      ensures o.Pass? && old(Consistent()) && F.Length0 == 0 ==> Consistent()
    {
      if |bs| != outputSample.dimension { return Fail(InvalidArgument); }
      var outputDimension := FirstOutputDimension(bs);
      if outputDimension == 0 { return Fail(InvalidArgument); }
      basisCollection := bs;
      return Pass;
    }

    /** setNoise: one non-negative value per sample point. */
    method SetNoise(v: seq<real>) returns (o: Outcome)
      modifies this`noise
      ensures o.Pass? <==> |v| == inputSample.Size() && forall i :: 0 <= i < |v| ==> v[i] >= 0.0
      ensures o.Fail? ==> o.error == InvalidArgument && unchanged(this)
      ensures o.Pass? ==> noise == v
      ensures o.Pass? && old(Consistent()) ==> Consistent()
    {
      var size := inputSample.Size();
      if |v| != size { return Fail(InvalidArgument); }
      for i := 0 to size
        invariant forall k :: 0 <= k < i ==> v[k] >= 0.0
      {
        if !(v[i] >= 0.0) { return Fail(InvalidArgument); }
      }
      noise := v;
      return Pass;
    }

    /** setOptimizationBounds: the bounds must be as large as the reduced
        parameter vector. */
    method SetOptimizationBounds(b: Interval) returns (o: Outcome)
      requires Valid()
      modifies this`optimizationBounds
      ensures Valid()
      ensures o.Pass? <==> b.Dimension() == reducedCovarianceModel.ParameterSize()
      ensures o.Fail? ==> o.error == InvalidArgument && unchanged(this)
      ensures o.Pass? ==> optimizationBounds == b
    {
      if b.Dimension() != |reducedCovarianceModel.Parameter()| { return Fail(InvalidArgument); }
      optimizationBounds := b;
      return Pass;
    }

    /** setOptimizeParameters: nothing happens unless the flag changes;
        then the stored model is set again, which re-derives the reduced
        model and the bounds. */
    method SetOptimizeParameters(flag: bool) returns (o: Outcome)
      requires Valid()
      requires ComposerValid(composer)
      modifies this`optimizeParameters, this`covarianceModel, this`reducedCovarianceModel,
               this`analyticalAmplitude, this`optimizationBounds
      ensures Valid()
      ensures flag == old(optimizeParameters) ==> o.Pass? && unchanged(this)
      ensures flag != old(optimizeParameters) ==>
        var s := SetupCovariance(old(covarianceModel), inputSample.dimension, outputSample.dimension,
                                 flag, config, composer);
        && optimizeParameters == flag
        && (o.Pass? <==> s.Ok?)
        && (o.Fail? ==> && o.error == InvalidArgument
                        && covarianceModel == old(covarianceModel)
                        && reducedCovarianceModel == old(reducedCovarianceModel)
                        && analyticalAmplitude == old(analyticalAmplitude)
                        && optimizationBounds == old(optimizationBounds))
        && (o.Pass? ==> && covarianceModel == s.value.model
                        && reducedCovarianceModel == s.value.reduced
                        && analyticalAmplitude == s.value.analyticalAmplitude
                        && optimizationBounds == s.value.bounds)
      ensures old(Consistent()) && o.Pass? ==> Consistent()
    {
      if flag != optimizeParameters {
        optimizeParameters := flag;
        o := SetCovarianceModel(covarianceModel);
      } else {
        o := Pass;
      }
    }

    /** setOptimizationSolver: a new solver invalidates the fit. */
    method SetOptimizationSolver(s: Solver)
      modifies this`solver, this`hasRun
      ensures solver == s && !hasRun
    {
      solver := s;
      hasRun := false;
    }

    /** setInputTransformation: a map of the input space onto itself;
        it switches normalisation on. */
    method SetInputTransformation(t: Transformation) returns (o: Outcome)
      modifies this`inputTransformation, this`normalize
      ensures o.Pass? <==> t.inputDimension == inputSample.dimension && t.outputDimension == inputSample.dimension
      ensures o.Fail? ==> o.error == InvalidDimension && unchanged(this)
      ensures o.Pass? ==> inputTransformation == t && normalize
      ensures o.Pass? ==> InputTransformation() == t
    {
      if t.inputDimension != inputSample.dimension { return Fail(InvalidDimension); }
      if t.outputDimension != inputSample.dimension { return Fail(InvalidDimension); }
      inputTransformation := t;
      normalize := true;
      return Pass;
    }

    /** getInputTransformation: the identity when the data are not
        normalised. */
    function InputTransformation(): (t: Transformation)
      reads this`normalize, this`inputSample, this`inputTransformation
      ensures !normalize ==> t == Identity(inputSample.dimension)
      ensures normalize ==> t == inputTransformation
    {
      if !normalize then Identity(inputSample.dimension) else inputTransformation
    }

    /** initializeMethod: HMAT selects the hierarchical backend; any other
        setting leaves the backend as it is. */
    method InitializeMethod()
      modifies this`backend
      ensures backend == if config.linearAlgebra == "HMAT" then HMat else old(backend)
    {
      if config.linearAlgebra == "HMAT" {
        backend := HMat;
      }
    }

    /** initializeDefaultOptimizationSolver: an unknown name throws. */
    method InitializeDefaultOptimizationSolver() returns (o: Outcome)
      modifies this`solver
      ensures o.Pass? <==> SolverNamed(config.solverName).Ok?
      ensures o.Fail? ==> o.error == InvalidArgument && unchanged(this)
      ensures o.Pass? ==> solver == SolverNamed(config.solverName).value
    {
      var name := config.solverName;
      if name == "TNC" {
        solver := TNC;
      } else if name == "NELDER-MEAD" {
        solver := NLopt("LN_NELDERMEAD");
      } else if name == "LBFGS" {
        solver := NLopt("LD_LBFGS");
      } else {
        return Fail(InvalidArgument);
      }
      return Pass;
    }

    /** normalizeInputSample: computed once, the input sample itself when
        normalisation is off. */
    method NormalizeInputSample()
      modifies this`normalizedInputSample
      ensures old(normalizedInputSample.Size()) != 0 ==> unchanged(this)
      ensures old(normalizedInputSample.Size()) == 0 ==>
        normalizedInputSample == Transform(InputTransformation(), inputSample)
      ensures old(normalizedInputSample.Size()) == 0 && !normalize ==> normalizedInputSample == inputSample
      ensures old(Consistent()) ==> Consistent() && normalizedInputSample.Size() == inputSample.Size()
    {
      if normalizedInputSample.Size() != 0 { return; }
      if !normalize {
        TransformIdentity(inputSample);
        normalizedInputSample := inputSample;
        return;
      }
      normalizedInputSample := Transform(inputTransformation, inputSample);
    }

    /** computeF: computed once (while it has no rows). */
    method ComputeF()
      requires BasisFits(basisCollection, outputSample.dimension)
      modifies this`F
      ensures old(F.Length0) != 0 ==> F == old(F)
      ensures old(F.Length0) == 0 ==>
        && F.Length0 == normalizedInputSample.Size() * outputSample.dimension
        && F.Length1 == TotalSize(basisCollection)
        && forall r, c :: 0 <= r < F.Length0 && 0 <= c < F.Length1 ==>
             F[r, c] == DesignEntry(basisCollection, normalizedInputSample.points, outputSample.dimension, r, c)
      ensures old(Consistent()) ==> Consistent()
    {
      if F.Length0 != 0 { return; }
      F := BuildDesignMatrix(basisCollection, normalizedInputSample.points, outputSample.dimension);
    }

    /** normalizeInputSample then computeF, as run and
        getObjectiveFunction both start. */
    method PrepareData()
      requires Valid() && Consistent()
      modifies this`normalizedInputSample, this`F
      ensures Valid() && Consistent()
      ensures normalizedInputSample.Size() == inputSample.Size() && F.Length1 == TotalSize(basisCollection)
    {
      NormalizeInputSample();
      ComputeF();
    }

    /** computeReducedLogLikelihood: check the parameter size, set the
        parameters (amplitude 1 first when it is analytical), evaluate on
        the backend, recover the amplitude analytically if needed, and
        store the factor, the trend fit and the value.  When the ladder
        gives up the parameters are still set. */
    method ComputeReducedLogLikelihood(parameters: seq<real>) returns (r: Result<real>)
      requires Valid()
      requires |noise| == 0 || |noise| == normalizedInputSample.Size()
      modifies this`reducedCovarianceModel, this`fit, this`evaluated
      ensures Valid()
      ensures |parameters| != old(reducedCovarianceModel.ParameterSize()) ==>
                r == Err(InvalidArgument) && unchanged(this)
      ensures |parameters| == old(reducedCovarianceModel.ParameterSize()) ==>
        var m := ParametrizedModel(old(reducedCovarianceModel), analyticalAmplitude, parameters);
        var s := RefitOf(config, numerics, backend, analyticalAmplitude, inputSample.Size(),
                         old(EvaluationInputs()), m, old(fit));
        && (r.Err? <==> s.Err?)
        && (r.Err? ==> && r.error == InvalidArgument && reducedCovarianceModel == m
                       && fit == old(fit) && evaluated == old(evaluated))
        && (r.Ok? ==>
              && r.value == fit.lastReducedLogLikelihood && reducedCovarianceModel == s.value.model
              && fit == s.value.fit && evaluated == old(evaluated) + [parameters])
      ensures r.Ok? ==> TrendSized()
      ensures old(Consistent()) ==> Consistent()
    {
      if |parameters| != |reducedCovarianceModel.Parameter()| { return Err(InvalidArgument); }
      r := EvaluateAt(parameters);
    }

    /** computeReducedLogLikelihood past its size check: reparametrise the
        working model, refit, and store the outcome. */
    method EvaluateAt(parameters: seq<real>) returns (r: Result<real>)
      requires Valid()
      requires |noise| == 0 || |noise| == normalizedInputSample.Size()
      requires |parameters| == reducedCovarianceModel.ParameterSize()
      modifies this`reducedCovarianceModel, this`fit, this`evaluated
      ensures Valid()
      ensures var m := ParametrizedModel(old(reducedCovarianceModel), analyticalAmplitude, parameters);
        var s := RefitOf(config, numerics, backend, analyticalAmplitude, inputSample.Size(),
                         old(EvaluationInputs()), m, old(fit));
        && (r.Err? <==> s.Err?)
        && (r.Err? ==> && r.error == InvalidArgument && reducedCovarianceModel == m
                       && fit == old(fit) && evaluated == old(evaluated))
        && (r.Ok? ==>
              && r.value == fit.lastReducedLogLikelihood && reducedCovarianceModel == s.value.model
              && fit == s.value.fit && evaluated == old(evaluated) + [parameters])
      ensures r.Ok? ==> TrendSized()
      ensures old(Consistent()) ==> Consistent()
    {
      var model := ParametrizedModel(reducedCovarianceModel, analyticalAmplitude, parameters);
      var s := Refit(config, numerics, backend, analyticalAmplitude, inputSample.Size(), EvaluationInputs(), model, fit);
      r := Record(model, s, parameters);
    }

    /** Stores what an evaluation leaves behind: the reparametrised model
        when it failed; the new model, the fit and the evaluated point when
        it succeeded. */
    method Record(model: CovarianceModel, s: Result<Refitted>, parameters: seq<real>) returns (r: Result<real>)
      requires Valid() && model.WellFormed()
      requires model.ParameterSize() == reducedCovarianceModel.ParameterSize()
      requires model.Dimension() == reducedCovarianceModel.Dimension()
      requires s.Err? ==> s.error == InvalidArgument
      requires s.Ok? ==> s.value.model.WellFormed() && s.value.model.ParameterSize() == model.ParameterSize()
      requires s.Ok? ==> s.value.model.Dimension() == model.Dimension()
      requires s.Ok? && |basisCollection| > 0 ==> |s.value.fit.beta| == F.Length1
      modifies this`reducedCovarianceModel, this`fit, this`evaluated
      ensures Valid()
      ensures r.Err? <==> s.Err?
      ensures r.Err? ==> && r.error == InvalidArgument && reducedCovarianceModel == model
                         && fit == old(fit) && evaluated == old(evaluated)
      ensures r.Ok? ==> && r.value == fit.lastReducedLogLikelihood && reducedCovarianceModel == s.value.model
                        && fit == s.value.fit && evaluated == old(evaluated) + [parameters] && TrendSized()
      ensures old(Consistent()) ==> Consistent()
    {
      if s.Err? {
        SetReduced(model);
        return Err(s.error);
      }
      Store(s.value, parameters);
      return Ok(s.value.fit.lastReducedLogLikelihood);
    }

    /** Stores a reparametrised working model. */
    method SetReduced(model: CovarianceModel)
      requires Valid() && model.WellFormed() && model.ParameterSize() == reducedCovarianceModel.ParameterSize()
      requires model.Dimension() == reducedCovarianceModel.Dimension()
      modifies this`reducedCovarianceModel
      ensures Valid() && reducedCovarianceModel == model
      ensures old(Consistent()) ==> Consistent()
    {
      reducedCovarianceModel := model;
    }

    /** Stores what an evaluation leaves behind. */
    method Store(s: Refitted, parameters: seq<real>)
      requires Valid() && s.model.WellFormed() && s.model.ParameterSize() == reducedCovarianceModel.ParameterSize()
      requires s.model.Dimension() == reducedCovarianceModel.Dimension()
      modifies this`reducedCovarianceModel, this`fit, this`evaluated
      ensures Valid()
      ensures reducedCovarianceModel == s.model && fit == s.fit && evaluated == old(evaluated) + [parameters]
      ensures old(Consistent()) ==> Consistent()
    {
      reducedCovarianceModel, fit, evaluated := s.model, s.fit, evaluated + [parameters];
    }

    /** The objective the optimiser maximises (getObjectiveFunction wraps
        computeReducedLogLikelihood in an evaluation): the reduced
        log-likelihood at x, recorded as evaluated on success. */
    method Objective(x: Point) returns (r: Result<real>)
      requires Valid() && Consistent() && normalizedInputSample.Size() == inputSample.Size()
      modifies this`reducedCovarianceModel, this`fit, this`evaluated
      ensures Valid() && Consistent()
      ensures reducedCovarianceModel.ParameterSize() == old(reducedCovarianceModel.ParameterSize())
      ensures r.Err? ==> r.error == InvalidArgument && evaluated == old(evaluated) && fit == old(fit)
      ensures r.Ok? ==> r.value == fit.lastReducedLogLikelihood && evaluated == old(evaluated) + [x] && TrendSized()
      ensures |x| != old(reducedCovarianceModel.ParameterSize()) ==> r == Err(InvalidArgument) && unchanged(this)
      ensures |x| == old(reducedCovarianceModel.ParameterSize()) ==>
        var m := ParametrizedModel(old(reducedCovarianceModel), analyticalAmplitude, x);
        var s := RefitOf(config, numerics, backend, analyticalAmplitude, inputSample.Size(),
                         old(EvaluationInputs()), m, old(fit));
        && (r.Err? <==> s.Err?)
        && (r.Ok? ==> reducedCovarianceModel == s.value.model && fit == s.value.fit)
      ensures r.Ok? <==> ReplayFrom(old(Current()), [x]).Ok?
      ensures r.Ok? ==> ReplayFrom(old(Current()), [x]) == Ok(Current())
    {
      ReplayOne(x);
      r := ComputeReducedLogLikelihood(x);
    }

    /** The optimiser's requests, through the objective's cache: each
        point is evaluated the first time it is asked for. */
    method Replay(requests: seq<Point>) returns (o: Outcome)
      requires Valid() && Consistent() && normalizedInputSample.Size() == inputSample.Size()
      modifies this`reducedCovarianceModel, this`fit, this`evaluated
      ensures Valid() && Consistent()
      ensures reducedCovarianceModel.ParameterSize() == old(reducedCovarianceModel.ParameterSize())
      ensures o.Pass? ==> evaluated == old(evaluated) + FirstOccurrences(requests)
      ensures evaluated != old(evaluated) ==> TrendSized()
      ensures evaluated == old(evaluated) ==> fit == old(fit)
      ensures o.Fail? ==> o.error == InvalidArgument
      ensures o.Pass? <==> ReplayFrom(old(Current()), FirstOccurrences(requests)).Ok?
      ensures o.Pass? ==> ReplayFrom(old(Current()), FirstOccurrences(requests)) == Ok(Current())
    {
      ghost var start := Current();
      var cache: set<Point> := {};
      for i := 0 to |requests|
        invariant Valid() && Consistent()
        invariant forall p :: p in cache <==> p in requests[..i]
        invariant evaluated == old(evaluated) + FirstOccurrences(requests[..i])
        invariant evaluated != old(evaluated) ==> TrendSized()
        invariant evaluated == old(evaluated) ==> fit == old(fit)
        invariant ReplayFrom(start, FirstOccurrences(requests[..i])) == Ok(Current())
        invariant reducedCovarianceModel.ParameterSize() == old(reducedCovarianceModel.ParameterSize())
      {
        var step;
        ghost var e0 := evaluated;
        step, cache := Request(requests, i, cache, start);
        if step.Fail? { return step; }
        RecordStep(old(evaluated), requests, i, e0, evaluated);
      }
      assert requests[..|requests|] == requests;
      return Pass;
    }

    /** The optimiser's request i through the cache: the objective is
        evaluated at a point not requested before, and the cache learns it. */
    method Request(requests: seq<Point>, i: nat, cache: set<Point>, ghost start: Refitted)
      returns (o: Outcome, cache': set<Point>)
      requires Valid() && Consistent() && normalizedInputSample.Size() == inputSample.Size()
      requires i < |requests| && forall p :: p in cache <==> p in requests[..i]
      requires start.model.WellFormed() && ReplayFrom(start, FirstOccurrences(requests[..i])) == Ok(Current())
      modifies this`reducedCovarianceModel, this`fit, this`evaluated
      ensures Valid() && Consistent()
      ensures reducedCovarianceModel.ParameterSize() == old(reducedCovarianceModel.ParameterSize())
      ensures forall p :: p in cache' <==> p in requests[..i + 1]
      ensures evaluated == old(evaluated) ==> fit == old(fit)
      ensures evaluated != old(evaluated) ==> TrendSized() && |evaluated| > |old(evaluated)|
      ensures requests[i] in requests[..i] ==> o.Pass? && evaluated == old(evaluated) &&
                                               FirstOccurrences(requests[..i + 1]) == FirstOccurrences(requests[..i])
      ensures requests[i] !in requests[..i] ==>
                FirstOccurrences(requests[..i + 1]) == FirstOccurrences(requests[..i]) + [requests[i]]
      ensures requests[i] !in requests[..i] && o.Pass? ==> evaluated == old(evaluated) + [requests[i]]
      ensures o.Pass? ==> ReplayFrom(start, FirstOccurrences(requests[..i + 1])) == Ok(Current())
      ensures o.Fail? ==> o.error == InvalidArgument && ReplayFrom(start, FirstOccurrences(requests)).Err?
    {
      var x := requests[i];
      CacheStep(requests, i, cache);
      cache' := cache + {x};
      if x !in cache {
        o := Miss(requests, i, start);
      } else {
        FirstOccurrencesRepeat(requests, i);
        o := Pass;
      }
    }

    /** A request not seen before: the objective is evaluated there. */
    method Miss(requests: seq<Point>, i: nat, ghost start: Refitted) returns (o: Outcome)
      requires Valid() && Consistent() && normalizedInputSample.Size() == inputSample.Size()
      requires i < |requests| && requests[i] !in requests[..i]
      requires start.model.WellFormed() && ReplayFrom(start, FirstOccurrences(requests[..i])) == Ok(Current())
      modifies this`reducedCovarianceModel, this`fit, this`evaluated
      ensures Valid() && Consistent()
      ensures reducedCovarianceModel.ParameterSize() == old(reducedCovarianceModel.ParameterSize())
      ensures o.Fail? ==> evaluated == old(evaluated) && fit == old(fit)
      ensures o.Pass? ==> evaluated == old(evaluated) + [requests[i]] && TrendSized()
      ensures FirstOccurrences(requests[..i + 1]) == FirstOccurrences(requests[..i]) + [requests[i]]
      ensures o.Pass? ==> ReplayFrom(start, FirstOccurrences(requests[..i + 1])) == Ok(Current())
      ensures o.Fail? ==> o.error == InvalidArgument && ReplayFrom(start, FirstOccurrences(requests)).Err?
    {
      FirstOccurrencesNew(requests, i);
      var v := Consult(requests[i], start, FirstOccurrences(requests[..i]));
      if v.Err? {
        ghost var rest := FirstOccurrencesPrefix(requests, i + 1);
        ReplayedFailureSticks(config, numerics, backend, analyticalAmplitude, inputSample.Size(), DataInputs(),
                              start, FirstOccurrences(requests[..i + 1]), rest);
        return Fail(v.error);
      }
      return Pass;
    }

    /** One cache miss of the objective: the evaluation at x continues the
        replay of the points evaluated so far. */
    method Consult(x: Point, ghost start: Refitted, ghost points: seq<Point>) returns (v: Result<real>)
      requires Valid() && Consistent() && normalizedInputSample.Size() == inputSample.Size()
      requires start.model.WellFormed() && ReplayFrom(start, points) == Ok(Current())
      modifies this`reducedCovarianceModel, this`fit, this`evaluated
      ensures Valid() && Consistent()
      ensures reducedCovarianceModel.ParameterSize() == old(reducedCovarianceModel.ParameterSize())
      ensures v.Err? ==> v.error == InvalidArgument && evaluated == old(evaluated) && fit == old(fit)
      ensures v.Ok? ==> evaluated == old(evaluated) + [x] && TrendSized()
      ensures v.Ok? ==> ReplayFrom(start, points + [x]) == Ok(Current())
      ensures v.Err? ==> ReplayFrom(start, points + [x]).Err?
    {
      ghost var current := Current();
      ReplayedExtend(config, numerics, backend, analyticalAmplitude, inputSample.Size(), DataInputs(), start, points, x);
      ReplayedSingle(config, numerics, backend, analyticalAmplitude, inputSample.Size(), DataInputs(), current, x);
      v := Objective(x);
    }

    /** maximizeReducedLogLikelihood: with no parameter, one evaluation and
        no optimiser run; otherwise one optimiser run (its evaluations go
        through a cache), then one more evaluation at the optimum exactly
        when the last computed value is not the optimal one.  `last` is the
        last computed value once the optimiser has returned. */
    method MaximizeReducedLogLikelihood() returns (r: Result<real>, ghost last: real)
      requires Valid() && Consistent()
      modifies this`normalizedInputSample, this`F, this`reducedCovarianceModel, this`fit,
               this`evaluated, this`solverRuns
      ensures Valid() && Consistent() && F.Length1 == TotalSize(basisCollection)
      ensures var p0 := old(reducedCovarianceModel.Parameter());
        |p0| == 0 ==>
          && solverRuns == old(solverRuns)
          && (r.Ok? ==> evaluated == old(evaluated) + [p0] && r.value == fit.lastReducedLogLikelihood)
      ensures var p0 := old(reducedCovarianceModel.Parameter());
        |p0| > 0 ==>
          var run := services.optimize(solver, LikelihoodProblem(|p0|, optimizationBounds), p0);
          && solverRuns == old(solverRuns) + 1
          && (r.Ok? ==>
                && r.value == run.optimalValue
                && evaluated == old(evaluated) + FirstOccurrences(run.evaluations) +
                                (if last != run.optimalValue then [run.optimalPoint] else [])
                && (FirstOccurrences(run.evaluations) == [] ==> last == old(fit.lastReducedLogLikelihood))
                && (fit.lastReducedLogLikelihood == run.optimalValue ||
                    evaluated == old(evaluated) + FirstOccurrences(run.evaluations) + [run.optimalPoint]))
      ensures var p0 := old(reducedCovarianceModel.Parameter());
        |p0| == 0 ==>
          && (r.Ok? <==> ReplayFrom(old(Current()), [p0]).Ok?)
          && (r.Ok? ==> ReplayFrom(old(Current()), [p0]) == Ok(Current()))
      ensures var p0 := old(reducedCovarianceModel.Parameter());
        |p0| > 0 ==>
          var run := services.optimize(solver, LikelihoodProblem(|p0|, optimizationBounds), p0);
          var requested := ReplayFrom(old(Current()), FirstOccurrences(run.evaluations));
          r.Ok? ==>
            && requested.Ok? && last == requested.value.fit.lastReducedLogLikelihood
            && ReplayFrom(old(Current()), FirstOccurrences(run.evaluations) +
                                          (if last != run.optimalValue then [run.optimalPoint] else [])) == Ok(Current())
      ensures r.Ok? && evaluated != old(evaluated) ==> TrendSized()
      ensures r.Err? ==> r.error == InvalidArgument
    {
      last := fit.lastReducedLogLikelihood;
      var initialParameters := reducedCovarianceModel.Parameter();
      // getObjectiveFunction() normalises and builds the design matrix first
      PrepareData();
      if |initialParameters| == 0 {
        var v := Objective(initialParameters);
        return v, last;
      }
      r, last := Search(initialParameters);
    }

    /** The solver branch of maximizeReducedLogLikelihood: one optimiser
        run from p0 on the likelihood problem, then its outcome settled. */
    method Search(p0: seq<real>) returns (r: Result<real>, ghost last: real)
      requires Valid() && Consistent() && normalizedInputSample.Size() == inputSample.Size()
      requires |p0| == optimizationBounds.Dimension()
      modifies this`reducedCovarianceModel, this`fit, this`evaluated, this`solverRuns
      ensures Valid() && Consistent()
      ensures var run := services.optimize(solver, LikelihoodProblem(|p0|, optimizationBounds), p0);
        && solverRuns == old(solverRuns) + 1
        && (r.Ok? ==>
              && r.value == run.optimalValue
              && evaluated == old(evaluated) + FirstOccurrences(run.evaluations) +
                              (if last != run.optimalValue then [run.optimalPoint] else [])
              && (FirstOccurrences(run.evaluations) == [] ==> last == old(fit.lastReducedLogLikelihood))
              && (fit.lastReducedLogLikelihood == run.optimalValue ||
                  evaluated == old(evaluated) + FirstOccurrences(run.evaluations) + [run.optimalPoint]))
      ensures var run := services.optimize(solver, LikelihoodProblem(|p0|, optimizationBounds), p0);
        var requested := ReplayFrom(old(Current()), FirstOccurrences(run.evaluations));
        r.Ok? ==>
          && requested.Ok? && last == requested.value.fit.lastReducedLogLikelihood
          && ReplayFrom(old(Current()), FirstOccurrences(run.evaluations) +
                                        (if last != run.optimalValue then [run.optimalPoint] else [])) == Ok(Current())
      ensures r.Ok? && evaluated != old(evaluated) ==> TrendSized()
      ensures r.Err? ==> r.error == InvalidArgument
    {
      ghost var start := Current();
      var run := RunSolver(p0);
      assert Current() == start && evaluated == old(evaluated);
      r, last := Settle(run);
    }

    /** What follows the optimiser run: its requests replayed through the
        cache, then the evaluation at the optimum when needed. */
    method Settle(run: SolverRun) returns (r: Result<real>, ghost last: real)
      requires Valid() && Consistent() && normalizedInputSample.Size() == inputSample.Size()
      modifies this`reducedCovarianceModel, this`fit, this`evaluated
      ensures Valid() && Consistent()
      ensures r.Ok? ==>
              && r.value == run.optimalValue
              && evaluated == old(evaluated) + FirstOccurrences(run.evaluations) +
                              (if last != run.optimalValue then [run.optimalPoint] else [])
              && (FirstOccurrences(run.evaluations) == [] ==> last == old(fit.lastReducedLogLikelihood))
              && (fit.lastReducedLogLikelihood == run.optimalValue ||
                  evaluated == old(evaluated) + FirstOccurrences(run.evaluations) + [run.optimalPoint])
      ensures var requested := ReplayFrom(old(Current()), FirstOccurrences(run.evaluations));
        r.Ok? ==>
          && requested.Ok? && last == requested.value.fit.lastReducedLogLikelihood
          && ReplayFrom(old(Current()), FirstOccurrences(run.evaluations) +
                                        (if last != run.optimalValue then [run.optimalPoint] else [])) == Ok(Current())
      ensures r.Ok? && evaluated != old(evaluated) ==> TrendSized()
      ensures r.Err? ==> r.error == InvalidArgument
    {
      last := fit.lastReducedLogLikelihood;
      ghost var start := Current();
      var replayed := Replay(run.evaluations);
      if replayed.Fail? { return Err(replayed.error), last; }
      ghost var replayedPoints := evaluated;
      ghost var middle := Current();
      ghost var requested := FirstOccurrences(run.evaluations);
      assert ReplayFrom(start, requested) == Ok(middle);
      r, last := Polish(run.optimalPoint, run.optimalValue);
      assert ReplayFrom(start, requested) == Ok(middle);
      assert r.Ok? ==> evaluated == replayedPoints + (if last != run.optimalValue then [run.optimalPoint] else []);
      ReplayedAppend(config, numerics, backend, analyticalAmplitude, inputSample.Size(), DataInputs(),
                     start, requested, if last != run.optimalValue then [run.optimalPoint] else []);
    }

    /** One optimiser run from p0 on the likelihood problem. */
    method RunSolver(p0: seq<real>) returns (run: SolverRun)
      requires |p0| == optimizationBounds.Dimension()
      modifies this`solverRuns
      ensures run == services.optimize(solver, LikelihoodProblem(|p0|, optimizationBounds), p0)
      ensures solverRuns == old(solverRuns) + 1
    {
      // the bounds have one component per parameter, so setBounds accepts them
      var problem := BuildLikelihoodProblem(|p0|, optimizationBounds);
      run := services.optimize(solver, problem.value, p0);
      solverRuns := solverRuns + 1;
    }

    /** The end of maximizeReducedLogLikelihood: when the last computed
        value is not the optimal one, the optimum is evaluated once more,
        outside the cache.  `last` is that last computed value. */
    method Polish(optimalPoint: Point, optimalValue: real) returns (r: Result<real>, ghost last: real)
      requires Valid() && Consistent() && normalizedInputSample.Size() == inputSample.Size()
      modifies this`reducedCovarianceModel, this`fit, this`evaluated
      ensures Valid() && Consistent()
      ensures last == old(fit.lastReducedLogLikelihood)
      ensures r.Ok? ==> r.value == optimalValue &&
                        evaluated == old(evaluated) + if last != optimalValue then [optimalPoint] else []
      ensures r.Ok? && evaluated != old(evaluated) ==> TrendSized()
      ensures r.Ok? && evaluated == old(evaluated) ==> fit == old(fit)
      ensures r.Ok? ==> ReplayFrom(old(Current()), if last != optimalValue then [optimalPoint] else []) == Ok(Current())
      ensures r.Err? ==> last != optimalValue && ReplayFrom(old(Current()), [optimalPoint]).Err?
      ensures r.Err? ==> r.error == InvalidArgument
    {
      last := fit.lastReducedLogLikelihood;
      if fit.lastReducedLogLikelihood != optimalValue {
        ReplayOne(optimalPoint);
        var v := ComputeReducedLogLikelihood(optimalPoint);
        if v.Err? { return Err(v.error), last; }
      }
      return Ok(optimalValue), last;
    }

    /** run: nothing to do once run; otherwise normalise, build F, maximise
        and store the estimates. */
    method Run() returns (o: Outcome)
      requires Valid() && Consistent()
      modifies this`normalizedInputSample, this`F, this`reducedCovarianceModel, this`fit,
               this`evaluated, this`solverRuns,
               this`result, this`hasRun
      ensures Valid()
      ensures old(hasRun) ==> o.Pass? && unchanged(this)
      ensures !old(hasRun) && o.Pass? ==>
        && hasRun && TotalSize(basisCollection) <= |fit.beta| && result.Some?
        && result.value == ResultOf(inputSample, outputSample, basisCollection, fit, reducedCovarianceModel,
                                    result.value.optimalLogLikelihood,
                                    keepCholeskyFactor, if normalize then Some(inputTransformation) else None)
      ensures !old(hasRun) && o.Pass? ==>
        var p0 := old(reducedCovarianceModel.Parameter());
        result.value.optimalLogLikelihood ==
          if |p0| > 0 then SolverOptimum(p0) else fit.lastReducedLogLikelihood
      ensures o.Fail? ==> result == old(result) && hasRun == old(hasRun)
      ensures o.Fail? ==> o.error == InvalidArgument || (o.error == InvalidDimension && evaluated == old(evaluated))
    {
      if hasRun { return Pass; }
      var optimal := Estimate();
      if optimal.Err? { return Fail(optimal.error); }
      o := StoreEstimates(optimal.value);
    }

    /** The estimation half of run: normalise, build F and maximise. */
    method Estimate() returns (r: Result<real>)
      requires Valid() && Consistent()
      modifies this`normalizedInputSample, this`F, this`reducedCovarianceModel, this`fit,
               this`evaluated, this`solverRuns
      ensures Valid() && Consistent() && F.Length1 == TotalSize(basisCollection)
      ensures r.Ok? ==>
        var p0 := old(reducedCovarianceModel.Parameter());
        r.value == if |p0| > 0 then SolverOptimum(p0) else fit.lastReducedLogLikelihood
      ensures r.Ok? && evaluated != old(evaluated) ==> TrendSized()
      ensures r.Err? ==> r.error == InvalidArgument
    {
      PrepareData();
      ghost var last;
      r, last := MaximizeReducedLogLikelihood();
    }

    /** The optimum the solver reports from p0. */
    ghost function SolverOptimum(p0: seq<real>): real
      reads this`solver, this`optimizationBounds
    {
      services.optimize(solver, LikelihoodProblem(|p0|, optimizationBounds), p0).optimalValue
    }

    /** The second half of run: partition beta into the trend
        coefficients, rescale the kept factor of the backend in use by the
        analytical amplitude, build the result and set hasRun.  The
        partition needs one coefficient per basis function. */
    method StoreEstimates(optimal: real) returns (o: Outcome)
      requires Valid() && Consistent()
      modifies this`fit, this`result, this`hasRun
      ensures Valid()
      ensures o.Pass? <==> TotalSize(basisCollection) <= |old(fit).beta|
      ensures o.Fail? ==> o.error == InvalidDimension && fit == old(fit) && result == old(result) && hasRun == old(hasRun)
      ensures o.Pass? ==>
        && hasRun && fit.beta == old(fit.beta) && fit.lastReducedLogLikelihood == old(fit.lastReducedLogLikelihood)
        && result == Some(ResultOf(inputSample, outputSample, basisCollection, fit, reducedCovarianceModel, optimal,
                                   keepCholeskyFactor, if normalize then Some(inputTransformation) else None))
    {
      if TotalSize(basisCollection) > |fit.beta| { return Fail(InvalidDimension); }
      var modelDimension := reducedCovarianceModel.Dimension();
      var coefficients, sample := PartitionCoefficients(fit.beta, basisCollection, modelDimension);
      SampleRows(sample, fit.beta, basisCollection, modelDimension);
      var rows := Rows(sample);
      var L, H := fit.choleskyFactor, fit.hmatFactor;
      if keepCholeskyFactor && analyticalAmplitude && |reducedCovarianceModel.layout.amplitude| > 0 {
        var sigma := reducedCovarianceModel.layout.amplitude[0];
        if backend == Lapack { L := numerics.scale(L, sigma); } else { H := numerics.scale(H, sigma); }
      }
      var scaled := fit.(choleskyFactor := L, hmatFactor := H);
      var transformation := if normalize then Some(inputTransformation) else None;
      var res := GLMResult(inputSample, outputSample, basisCollection, coefficients, rows,
                           reducedCovarianceModel, optimal,
                           if keepCholeskyFactor then Some(L) else None,
                           if keepCholeskyFactor then Some(H) else None,
                           transformation);
      assert res == ResultOf(inputSample, outputSample, basisCollection, scaled, reducedCovarianceModel,
                             optimal, keepCholeskyFactor, transformation);
      fit, result, hasRun := scaled, Some(res), true;
      return Pass;
    }

    /** getResult: runs first unless a run has completed. */
    method GetResult() returns (r: Result<GLMResult>)
      requires Valid() && Consistent()
      modifies this`normalizedInputSample, this`F, this`reducedCovarianceModel, this`fit,
               this`evaluated, this`solverRuns,
               this`result, this`hasRun
      ensures Valid()
      ensures old(hasRun) ==> r == Ok(old(result).value) && unchanged(this)
      ensures r.Ok? ==> hasRun && result == Some(r.value)
      ensures !old(hasRun) && r.Ok? ==>
        && TotalSize(basisCollection) <= |fit.beta|
        && r.value == ResultOf(inputSample, outputSample, basisCollection, fit, reducedCovarianceModel,
                               r.value.optimalLogLikelihood,
                               keepCholeskyFactor, if normalize then Some(inputTransformation) else None)
      ensures !old(hasRun) && r.Ok? ==>
        var p0 := old(reducedCovarianceModel.Parameter());
        r.value.optimalLogLikelihood == if |p0| > 0 then SolverOptimum(p0) else fit.lastReducedLogLikelihood
      ensures r.Err? ==> result == old(result) && !hasRun
      ensures r.Err? ==> r.error == InvalidArgument || (r.error == InvalidDimension && evaluated == old(evaluated))
    {
      if !hasRun {
        var o := Run();
        if o.Fail? { return Err(o.error); }
      }
      return Ok(result.value);
    }
  }

  /** The reduction step of setCovarianceModel, with the amplitude search
      written as the loop of the source (FindAmplitudeIndex). */
  method ReduceModel(m: CovarianceModel, optimize: bool, useAnalytical: bool)
    returns (reduced: CovarianceModel, analyticalAmplitude: bool)
    requires m.WellFormed()
    ensures Reduction(reduced, analyticalAmplitude) == Reduce(m, optimize, useAnalytical)
  {
    reduced := m;
    analyticalAmplitude := false;
    if !optimize {
      reduced := reduced.SetActiveParameter([]);
    } else if useAnalytical {
      if reduced.Dimension() == 1 {
        var description := reduced.ParameterDescription();
        var found, i := FindAmplitudeIndex(description);
        if found {
          analyticalAmplitude := true;
          EraseKeepsDistinct(reduced.layout.active, i);
          reduced := reduced.SetActiveParameter(Erase(reduced.layout.active, i));
          reduced := reduced.SetAmplitude([1.0]);
        }
      }
    }
  }

  /** setBasisCollection's search for the first non-empty marginal basis:
      the output dimension of its first function, or 0 when there is none. */
  method FirstOutputDimension(bs: seq<Basis>) returns (outputDimension: nat)
    ensures outputDimension == FirstFunctionDimension(bs)
  {
    var continuation := true;
    var index := 0;
    outputDimension := 0;
    while continuation
      invariant continuation ==> index <= |bs|
      invariant continuation ==> forall k :: 0 <= k < index ==> |bs[k]| == 0
      invariant continuation ==> outputDimension == 0
      invariant !continuation ==> outputDimension == FirstFunctionDimension(bs)
      decreases continuation, |bs| - index
    {
      if index < |bs| && |bs[index]| > 0 {
        FirstFunctionAt(bs, index);
        outputDimension := bs[index][0].outputDimension;
        continuation := false;
      } else {
        index := index + 1;
        continuation := continuation && index < |bs|;
        if !continuation { NoFirstFunctionBefore(bs, |bs|); }
      }
    }
  }

  /** The output dimension of the first function of the first non-empty
      marginal basis, or 0 when every marginal basis is empty (the value
      setBasisCollection's search ends with). */
  function FirstFunctionDimension(bs: seq<Basis>): nat {
    if bs == [] then 0
    else if |bs[0]| > 0 then bs[0][0].outputDimension
    else FirstFunctionDimension(bs[1..])
  }

  lemma {:induction false} FirstFunctionAt(bs: seq<Basis>, index: nat)
    requires index < |bs| && |bs[index]| > 0
    requires forall k :: 0 <= k < index ==> |bs[k]| == 0
    ensures FirstFunctionDimension(bs) == bs[index][0].outputDimension
  {
    if index > 0 {
      assert |bs[0]| == 0;
      FirstFunctionAt(bs[1..], index - 1);
    }
  }

  lemma {:induction false} NoFirstFunctionBefore(bs: seq<Basis>, index: nat)
    requires index <= |bs|
    requires forall k :: 0 <= k < index ==> |bs[k]| == 0
    ensures index == |bs| ==> FirstFunctionDimension(bs) == 0
  {
    if index == |bs| && bs != [] {
      assert |bs[0]| == 0;
      NoFirstFunctionBefore(bs[1..], index - 1);
    }
  }

  /** setBasisCollection rejects exactly the collections whose marginal
      bases are all empty, or whose first function is 0-dimensional. */
  lemma {:induction false} FirstFunctionDimensionPositive(bs: seq<Basis>)
    ensures FirstFunctionDimension(bs) > 0 ==> exists k :: 0 <= k < |bs| && |bs[k]| > 0
    ensures (forall k :: 0 <= k < |bs| ==> |bs[k]| == 0) ==> FirstFunctionDimension(bs) == 0
  {
    if bs != [] && |bs[0]| == 0 {
      FirstFunctionDimensionPositive(bs[1..]);
      if FirstFunctionDimension(bs) > 0 {
        var k :| 0 <= k < |bs[1..]| && |bs[1..][k]| > 0;
        assert |bs[k + 1]| > 0;
      }
      if forall k :: 0 <= k < |bs| ==> |bs[k]| == 0 {
        assert forall k :: 0 <= k < |bs[1..]| ==> |bs[1..][k]| == |bs[k + 1]|;
      }
    }
  }
}
