/** One evaluation of the reduced log-likelihood, on values: the covariance
    matrix of a model on the normalised sample (plus the noise), its
    regularised factorisation on either backend, the trend fit, the
    log-determinant, the analytical amplitude and the final value.  The
    linear algebra is supplied by a `Numerics` record of functions. */
module Likelihood {
  import opened Common
  import opened CovarianceModels
  import opened Factorization

  /** The ResourceMap entries the engine reads, and the SpecFunc constants
      it returns as sentinels. */
  datatype Config = Config(
    optimizeParameters: bool,      // ...-OptimizeParameters
    useAnalyticalAmplitude: bool,  // ...-UseAnalyticalAmplitudeEstimate
    lowerBound: real,              // ...-DefaultOptimizationLowerBound
    upperBound: real,              // ...-DefaultOptimizationUpperBound
    startingScaling: real,         // ...-StartingScaling
    maximalScaling: real,          // ...-MaximalScaling
    solverName: string,            // ...-DefaultOptimizationSolver
    linearAlgebra: string,         // ...-LinearAlgebra
    assemblyEpsilon: real,         // default HMatrixParameters
    recompressionEpsilon: real,
    logMin: real,                  // SpecFunc::LogMinNumericalScalar
    logMax: real,                  // SpecFunc::LogMaxNumericalScalar
    maxScalar: real)               // SpecFunc::MaxNumericalScalar

  /** method_: 0 selects the dense (LAPACK) backend, anything else the
      hierarchical-matrix one. */
  datatype Backend = Lapack | HMat

  /** The trend fit of one evaluation: the coefficients of the
      least-squares problem Phi.beta = rho and the residual rho - Phi.beta. */
  datatype TrendFit = TrendFit(beta: seq<real>, residual: seq<real>)

  /** What the least-squares solver gives back: the coefficient of each
      column of the design matrix, and the residual. */
  datatype TrendSolution = TrendSolution(coefficient: nat -> real, residual: seq<real>)

  /** The coefficient vector of a solution over `columns` columns. */
  function Coefficients(t: TrendSolution, columns: nat): (beta: seq<real>)
    ensures |beta| == columns && forall i :: 0 <= i < columns ==> beta[i] == t.coefficient(i)
  {
    seq(columns, i requires 0 <= i < columns => t.coefficient(i))
  }

  /** The numerical collaborators of an evaluation. */
  datatype Numerics = Numerics(
    discretize: (CovarianceModel, seq<Point>) -> ((nat, nat) -> real),  // the entries of C
    cholesky: Matrix -> Option<Triangular>,     // None: InternalException
    hmatFactorize: (CovarianceModel, seq<Point>, real, real, real) -> Option<Triangular>,
    solveLower: (Triangular, seq<real>) -> seq<real>,
    solveTrend: (Triangular, Matrix, nat, seq<real>) -> TrendSolution,
    amplitude: (seq<real>, nat, nat) -> real,   // the analytical sigma
    log: real -> real,
    rescale: (seq<real>, real) -> seq<real>,    // rho / sigma
    scale: (Triangular, real) -> Triangular)    // factor * sigma

  /** The n x n matrix with the given entries. */
  function Entries(n: nat, entry: (nat, nat) -> real): (M: Matrix)
    ensures |M| == n && forall i :: 0 <= i < n ==> |M[i]| == n
    ensures forall i, j :: 0 <= i < n && 0 <= j < n ==> M[i][j] == entry(i, j)
  {
    EntryRows(n, n, entry)
  }

  /** The first k rows of that matrix, built row by row. */
  function EntryRows(k: nat, n: nat, entry: (nat, nat) -> real): (M: Matrix)
    ensures |M| == k && forall i :: 0 <= i < k ==> |M[i]| == n
    ensures forall i, j :: 0 <= i < k && 0 <= j < n ==> M[i][j] == entry(i, j)
  {
    if k == 0 then [] else EntryRows(k - 1, n, entry) + [seq(n, j requires 0 <= j < n => entry(k - 1, j))]
  }

  /** A sample's data row by row, as one vector (getData()). */
  function Flatten(points: seq<Point>): seq<real> {
    if points == [] then [] else Flatten(points[..|points| - 1]) + points[|points| - 1]
  }

  /** A well-formed sample flattens to size * dimension values. */
  lemma {:induction false} FlattenSize(s: Sample)
    requires s.WellFormed()
    ensures |Flatten(s.points)| == s.Size() * s.dimension
    decreases |s.points|
  {
    if s.points != [] {
      var t := Sample(s.dimension, s.points[..|s.points| - 1]);
      FlattenSize(t);
      assert (|t.points| + 1) * s.dimension == |t.points| * s.dimension + s.dimension;
    }
  }

  /** ||v||^2. */
  function NormSquare(v: seq<real>): real {
    if v == [] then 0.0 else NormSquare(v[..|v| - 1]) + v[|v| - 1] * v[|v| - 1]
  }

  /** The hierarchical factorisation of one model on one sample, as a
      function of the cumulated scaling and the two epsilons. */
  function HMatFactorizer(nm: Numerics, m: CovarianceModel, pts: seq<Point>): (real, real, real) -> Option<Triangular> {
    (c: real, a: real, r: real) => nm.hmatFactorize(m, pts, c, a, r)
  }

  /** A covariance matrix with the noise of each sample point added on
      the diagonal entries of that point's d marginals, when there is noise
      of the matrix's size. */
  function WithNoise(M: Matrix, noise: seq<real>, d: nat): (S: Matrix)
    ensures |S| == |M| && forall i :: 0 <= i < |M| ==> |S[i]| == |M[i]|
    ensures forall i, j :: 0 <= i < |M| && 0 <= j < |M[i]| ==>
              S[i][j] == if i == j && |noise| > 0 && |noise| * d == |M| then M[i][j] + noise[i / d] else M[i][j]
  {
    if |noise| > 0 && |noise| * d == |M| then AddDiagonal(M, NoiseDiagonal(noise, d)) else M
  }

  /** What an evaluation reads of the engine's state: the normalised
      sample, the noise, the output data y, the design matrix F with its
      column count, whether there is a trend, and the current beta. */
  datatype Inputs = Inputs(
    points: seq<Point>,
    noise: seq<real>,
    y: seq<real>,
    design: Matrix,
    columns: nat,
    hasTrend: bool,
    beta: seq<real>)

  /** The covariance matrix a dense evaluation with model m factorises. */
  ghost function CovarianceMatrix(nm: Numerics, input: Inputs, m: CovarianceModel): Matrix {
    WithNoise(Entries(|input.points| * m.Dimension(), nm.discretize(m, input.points)), input.noise, m.Dimension())
  }

  /** The run of the retry ladder of an evaluation with model m. */
  ghost function Attempted(cfg: Config, nm: Numerics, backend: Backend, input: Inputs, m: CovarianceModel): Attempts
    requires cfg.startingScaling > 0.0
  {
    var start, max := cfg.startingScaling, cfg.maximalScaling;
    match backend
    case Lapack => Ladder(start, max, DenseTrial(CovarianceMatrix(nm, input, m), start, nm.cholesky))
    case HMat => Ladder(start, max, HMatTrial(start, cfg.assemblyEpsilon, cfg.recompressionEpsilon,
                                              HMatFactorizer(nm, m, input.points)))
  }

  /** The factor the ladder ends with, None when it gives up. */
  ghost function FactorFound(cfg: Config, nm: Numerics, backend: Backend, input: Inputs, m: CovarianceModel): Option<Triangular>
    requires cfg.startingScaling > 0.0
  {
    var a := Attempted(cfg, nm, backend, input, m);
    var c := Cumulated(cfg.startingScaling, a.failures);
    if Raises(a) then None
    else match backend
      case Lapack => nm.cholesky(Shifted(CovarianceMatrix(nm, input, m), c))
      case HMat => nm.hmatFactorize(m, input.points, c, Tenth(cfg.assemblyEpsilon, a.failures),
                                    Tenth(cfg.recompressionEpsilon, a.failures))
  }

  /** The ladder of an evaluation stops with a factor exactly when it does
      not give up. */
  lemma AttemptedStops(cfg: Config, nm: Numerics, backend: Backend, input: Inputs, m: CovarianceModel)
    requires cfg.startingScaling > 0.0
    ensures FactorFound(cfg, nm, backend, input, m).Some? <==> !Raises(Attempted(cfg, nm, backend, input, m))
  {
    var start, max := cfg.startingScaling, cfg.maximalScaling;
    match backend {
      case Lapack => LadderStops(start, max, DenseTrial(CovarianceMatrix(nm, input, m), start, nm.cholesky));
      case HMat => LadderStops(start, max, HMatTrial(start, cfg.assemblyEpsilon, cfg.recompressionEpsilon,
                                                     HMatFactorizer(nm, m, input.points)));
    }
  }

  /** The trend step with factor L: rho = L^-1 y and, with a trend, the
      least-squares fit of L^-1 F against rho and its residual; without a
      trend beta keeps its value. */
  function FitOf(nm: Numerics, input: Inputs, L: Triangular): (f: TrendFit)
    ensures input.hasTrend ==> |f.beta| == input.columns
    ensures !input.hasTrend ==> f.beta == input.beta
  {
    var rho0 := nm.solveLower(L, input.y);
    if input.hasTrend then
      var t := nm.solveTrend(L, input.design, input.columns, rho0);
      TrendFit(Coefficients(t, input.columns), t.residual)
    else TrendFit(input.beta, rho0)
  }

  /** The log-determinant sentinel of a backend. */
  function SentinelOf(cfg: Config, backend: Backend): real {
    if backend == Lapack then -cfg.logMax else cfg.maxScalar
  }

  /** The log-determinant of a covariance matrix from its triangular
      factor: twice the sum of the logarithms of the factor's diagonal, or
      the sentinel when a diagonal entry is not positive. */
  function FactorLogDeterminant(L: Triangular, log: real -> real, sentinel: real): real {
    if AllPositive(Diagonal(L)) then 2.0 * SumLog(Diagonal(L), log) else sentinel
  }

  /** The by-products of an evaluation: the factor, the trend fit and the
      log-determinant. */
  datatype Evaluation = Evaluation(factor: Triangular, beta: seq<real>, rho: seq<real>, logDeterminant: real)

  /** computeLapackLogDeterminantCholesky / computeHMatLogDeterminantCholesky
      as a function: an error exactly when the ladder gives up; otherwise
      the factor, the trend fit with it, and the log-determinant. */
  ghost function Evaluate(cfg: Config, nm: Numerics, backend: Backend, input: Inputs, m: CovarianceModel): (r: Result<Evaluation>)
    requires cfg.startingScaling > 0.0
    ensures r.Err? <==> Raises(Attempted(cfg, nm, backend, input, m))
    ensures r.Err? ==> r.error == InvalidArgument
    ensures r.Ok? ==> Some(r.value.factor) == FactorFound(cfg, nm, backend, input, m)
    ensures r.Ok? ==> TrendFit(r.value.beta, r.value.rho) == FitOf(nm, input, r.value.factor)
    ensures r.Ok? && !input.hasTrend ==> r.value.beta == input.beta
    ensures r.Ok? && input.hasTrend ==> |r.value.beta| == input.columns
  {
    AttemptedStops(cfg, nm, backend, input, m);
    match FactorFound(cfg, nm, backend, input, m)
    case None => Err(InvalidArgument)
    case Some(L) =>
      var fit := FitOf(nm, input, L);
      Ok(Evaluation(L, fit.beta, fit.residual, FactorLogDeterminant(L, nm.log, SentinelOf(cfg, backend))))
  }

  /** The dense part of computeLapackLogDeterminantCholesky: copy the
      discretised covariance into a square array, add the noise, and run
      the regularisation ladder on it.  None means the ladder gave up. */
  method FactorizeDense(n: nat, entry: (nat, nat) -> real, noise: seq<real>, d: nat, start: real, maximal: real,
                        cholesky: Matrix -> Option<Triangular>) returns (factor: Option<Triangular>)
    requires |noise| == 0 || |noise| * d == n
    requires start > 0.0
    ensures var M := WithNoise(Entries(n, entry), noise, d);
      var a := Ladder(start, maximal, DenseTrial(M, start, cholesky));
      && (factor.None? <==> Raises(a))
      && (factor.Some? ==> factor == cholesky(Shifted(M, Cumulated(start, a.failures))))
  {
    ghost var M := Entries(n, entry);
    var C := new real[n, n]((i, j) requires 0 <= i < n && 0 <= j < n => entry(i, j));
    forall i | 0 <= i < n
      ensures Rows(C)[i] == M[i]
    {
      forall j | 0 <= j < n
        ensures Rows(C)[i][j] == M[i][j]
      {
        assert C[i, j] == entry(i, j);
      }
    }
    assert Rows(C) == M;
    if |noise| > 0 {
      AddToDiagonal(C, NoiseDiagonal(noise, d));
    }
    assert Rows(C) == WithNoise(M, noise, d);
    var scaling, cumulated;
    factor, scaling, cumulated := RegularizeDense(C, start, maximal, cholesky);
  }

  /** computeLapackLogDeterminantCholesky. */
  method LapackLogDeterminantCholesky(cfg: Config, nm: Numerics, input: Inputs, m: CovarianceModel)
    returns (r: Result<Evaluation>)
    requires cfg.startingScaling > 0.0
    requires |input.noise| == 0 || |input.noise| == |input.points|
    ensures r == Evaluate(cfg, nm, Lapack, input, m)
  {
    var entry := nm.discretize(m, input.points);
    var factor := FactorizeDense(|input.points| * m.Dimension(), entry, input.noise, m.Dimension(),
                                 cfg.startingScaling, cfg.maximalScaling, nm.cholesky);
    if factor.None? { return Err(InvalidArgument); }
    var L := factor.value;
    // rho = L^-1 y and, with a trend, the least-squares fit of L^-1 F against rho
    var fit := FitOf(nm, input, L);
    var logDet := LogDeterminant(Diagonal(L), nm.log, -cfg.logMax);
    return Ok(Evaluation(L, fit.beta, fit.residual, logDet));
  }

  /** computeHMatLogDeterminantCholesky: the matrix is assembled again on
      every attempt, with the cumulated scaling on its diagonal and the
      current epsilons; the noise is not added. */
  method HMatLogDeterminantCholesky(cfg: Config, nm: Numerics, input: Inputs, m: CovarianceModel)
    returns (r: Result<Evaluation>)
    requires cfg.startingScaling > 0.0
    ensures r == Evaluate(cfg, nm, HMat, input, m)
  {
    var factor, scaling, cumulated, final :=
      RegularizeHMat(cfg.startingScaling, cfg.maximalScaling,
                     Compression(cfg.assemblyEpsilon, cfg.recompressionEpsilon), HMatFactorizer(nm, m, input.points));
    if factor.None? { return Err(InvalidArgument); }
    var L := factor.value;
    // rho = L^-1 y and, with a trend, the least-squares fit of L^-1 F against rho
    var fit := FitOf(nm, input, L);
    var logDet := LogDeterminant(Diagonal(L), nm.log, cfg.maxScalar);
    return Ok(Evaluation(L, fit.beta, fit.residual, logDet));
  }

  /** The reduced log-likelihood from a log-determinant and the whitened
      residual rho: LogMin when ||rho||^2 is not positive, and
      -(logDet + ||rho||^2) / 2 otherwise, which is then strictly below
      -logDet / 2. */
  function ReducedLogLikelihood(logDeterminant: real, rho: seq<real>, logMin: real): (v: real)
    ensures NormSquare(rho) <= 0.0 ==> v == logMin
    ensures NormSquare(rho) > 0.0 ==> v < -0.5 * logDeterminant
  {
    var epsilon := NormSquare(rho);
    if epsilon <= 0.0 then logMin else -0.5 * (logDeterminant + epsilon)
  }

  /** The end of computeReducedLogLikelihood: the model with its
      amplitude, the residual and the value. */
  datatype Conclusion = Conclusion(model: CovarianceModel, rho: seq<real>, value: real)

  /** With an analytical amplitude, sigma is recovered from the residual,
      becomes the model's amplitude, adds 2 N log(sigma) to the
      log-determinant and rescales the residual; otherwise the evaluation's
      model and residual are kept. */
  function Conclude(cfg: Config, nm: Numerics, analytical: bool, size: nat, m: CovarianceModel, e: Evaluation): (c: Conclusion)
    requires m.WellFormed()
    ensures c.model.WellFormed() && c.model.layout.values == m.layout.values && c.model.layout.active == m.layout.active
    ensures c.model.SpatialDimension() == m.SpatialDimension() && c.model.Dimension() == m.Dimension()
    ensures !analytical ==> c.model == m && c.rho == e.rho
    ensures analytical ==> |c.model.layout.amplitude| == 1
  {
    if analytical then
      var sigma := nm.amplitude(e.rho, size, |e.beta|);
      var rho := nm.rescale(e.rho, sigma);
      Conclusion(m.SetAmplitude([sigma]), rho,
                 ReducedLogLikelihood(e.logDeterminant + 2.0 * (size as real) * nm.log(sigma), rho, cfg.logMin))
    else
      Conclusion(m, e.rho, ReducedLogLikelihood(e.logDeterminant, e.rho, cfg.logMin))
  }
}
