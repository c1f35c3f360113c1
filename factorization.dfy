/** The control logic around the Cholesky factorisation of the discretised
    covariance matrix: the two diagonal-regularisation retry ladders (dense
    and hierarchical), the diagonal updates they perform in place, the
    observation noise, and the log-determinant loop with its sentinel.
    Factorising, solving and taking logarithms are parameters. */
module Factorization {
  import opened Common
  import Design

  /** A dense matrix by rows. */
  type Matrix = seq<seq<real>>

  /** The contents of an array-backed matrix. */
  function Rows(C: array2<real>): (M: Matrix)
    reads C
    ensures |M| == C.Length0
    ensures forall i :: 0 <= i < C.Length0 ==> |M[i]| == C.Length1
    ensures forall i, j :: 0 <= i < C.Length0 && 0 <= j < C.Length1 ==> M[i][j] == C[i, j]
  {
    seq(C.Length0, i requires 0 <= i < C.Length0 reads C =>
      seq(C.Length1, j requires 0 <= j < C.Length1 reads C => C[i, j]))
  }

  /** M with v[i] added to its diagonal entry (i, i); every other entry
      is left as it is. */
  function AddDiagonal(M: Matrix, v: seq<real>): (S: Matrix)
    requires |v| == |M|
    ensures |S| == |M|
    ensures forall i :: 0 <= i < |M| ==> |S[i]| == |M[i]|
    ensures forall i, j :: 0 <= i < |M| && 0 <= j < |M[i]| ==>
              S[i][j] == if i == j then M[i][j] + v[i] else M[i][j]
  {
    seq(|M|, i requires 0 <= i < |M| =>
      seq(|M[i]|, j requires 0 <= j < |M[i]| => if i == j then M[i][j] + v[i] else M[i][j]))
  }

  /** M with the same value c added to every diagonal entry. */
  function Shifted(M: Matrix, c: real): Matrix {
    AddDiagonal(M, Constant(|M|, c))
  }

  /** Two shifts of the diagonal add up: this is why the ladder can add
      each new scaling to the already shifted matrix. */
  lemma ShiftedTwice(M: Matrix, a: real, b: real)
    ensures Shifted(Shifted(M, a), b) == Shifted(M, a + b)
  {
    var L, R := Shifted(Shifted(M, a), b), Shifted(M, a + b);
    assert |L| == |R|;
    forall i | 0 <= i < |L| ensures L[i] == R[i] {
      assert |L[i]| == |R[i]|;
      forall j | 0 <= j < |L[i]| ensures L[i][j] == R[i][j] {
        if i == j { assert L[i][j] == M[i][j] + a + b; }
      }
    }
  }

  lemma ShiftedZero(M: Matrix)
    ensures Shifted(M, 0.0) == M
  {
    var S := Shifted(M, 0.0);
    forall i | 0 <= i < |M| ensures S[i] == M[i] {
      assert |S[i]| == |M[i]|;
    }
  }

  /** for (i = 0; i < C.getDimension(); ++i) C(i, i) += v[i]: the in-place
      diagonal update shared by the regularisation step and the noise. */
  method AddToDiagonal(C: array2<real>, v: seq<real>)
    requires C.Length0 == C.Length1 == |v|
    modifies C
    ensures Rows(C) == AddDiagonal(old(Rows(C)), v)
  {
    ghost var M := Rows(C);
    for i := 0 to C.Length0
      invariant forall r, c :: 0 <= r < C.Length0 && 0 <= c < C.Length1 ==>
                  C[r, c] == if r == c && r < i then M[r][c] + v[r] else M[r][c]
    {
      C[i, i] := C[i, i] + v[i];
    }
    var S := AddDiagonal(M, v);
    forall r | 0 <= r < C.Length0 ensures Rows(C)[r] == S[r] {
      assert |Rows(C)[r]| == |S[r]|;
    }
  }

  // ---------------------------------------------------------------------
  // The retry ladder.

  function Pow2(k: nat): (p: nat)
    ensures p >= 1
  {
    if k == 0 then 1 else 2 * Pow2(k - 1)
  }

  /** The value of `scaling` after k failed factorisations: doubled on
      every failure. */
  function Scaling(start: real, k: nat): real {
    if k == 0 then start else Scaling(start, k - 1) * 2.0
  }

  /** The value of `cumulatedScaling` after k failed factorisations: the
      scalings added to the diagonal so far. */
  function Cumulated(start: real, k: nat): real {
    if k == 0 then 0.0 else Cumulated(start, k - 1) + Scaling(start, k - 1)
  }

  /** The scalings form a geometric series: after k failures the scaling
      is start * 2^k and the cumulated scaling start * (2^k - 1). */
  lemma {:induction false} GeometricSeries(start: real, k: nat)
    ensures Scaling(start, k) == start * (Pow2(k) as real)
    ensures Cumulated(start, k) == start * ((Pow2(k) - 1) as real)
    ensures Cumulated(start, k) + start == Scaling(start, k)
  {
    if k > 0 {
      GeometricSeries(start, k - 1);
      var p := Pow2(k - 1) as real;
      assert Scaling(start, k) == (start * p) * 2.0 == start * (2.0 * p);
      assert Cumulated(start, k) == start * (p - 1.0) + start * p == start * (2.0 * p - 1.0);
    }
  }

  lemma {:induction false} Pow2AtLeast(k: nat)
    ensures Pow2(k) - 1 >= k
  {
    if k > 0 { Pow2AtLeast(k - 1); }
  }

  /** How many failures the ladder can afford before the cumulated
      scaling reaches the ceiling. */
  function MaxFailures(start: real, maximal: real): nat
    requires start > 0.0
  {
    if maximal <= 0.0 then 0 else (maximal / start).Floor as nat
  }

  /** While the cumulated scaling is below the ceiling, the number of
      failures so far is within MaxFailures: the ladder terminates. */
  lemma FailuresBounded(start: real, maximal: real, k: nat)
    requires start > 0.0 && Cumulated(start, k) < maximal
    ensures k <= MaxFailures(start, maximal)
  {
    GeometricSeries(start, k);
    Pow2AtLeast(k);
    var q := (Pow2(k) - 1) as real;
    MulMonotone(start, k as real, q);
    assert start * (k as real) <= start * q == Cumulated(start, k);
    BelowQuotient(start, k as real, maximal);
  }

  lemma MulMonotone(a: real, x: real, y: real)
    requires a > 0.0 && x <= y
    ensures a * x <= a * y
  {
    assert a * y - a * x == a * (y - x);
  }

  lemma BelowQuotient(a: real, x: real, m: real)
    requires a > 0.0 && a * x < m
    ensures x < m / a
  {
    var q := m / a;
    assert a * q == m;
    if x >= q { MulMonotone(a, q, x); }
  }

  /** The outcome of a run of the ladder: whether a factorisation was
      found, and after how many failures. */
  datatype Attempts = Attempts(succeeded: bool, failures: nat)

  /** The ladder from k failures on: stop and fail once the cumulated
      scaling reaches the ceiling, stop and succeed when attempt k
      factorises, otherwise enlarge the diagonal and retry. */
  function LadderFrom(start: real, maximal: real, trial: nat -> bool, k: nat): Attempts
    requires start > 0.0
    decreases MaxFailures(start, maximal) + 1 - k
  {
    if Cumulated(start, k) >= maximal then Attempts(false, k)
    else if trial(k) then Attempts(true, k)
    else
      FailuresBounded(start, maximal, k);
      LadderFrom(start, maximal, trial, k + 1)
  }

  function Ladder(start: real, maximal: real, trial: nat -> bool): Attempts
    requires start > 0.0
  {
    LadderFrom(start, maximal, trial, 0)
  }

  lemma {:induction false} LadderFromFacts(start: real, maximal: real, trial: nat -> bool, k: nat)
    requires start > 0.0
    requires forall j :: 0 <= j < k ==> !trial(j) && Cumulated(start, j) < maximal
    ensures var r := LadderFrom(start, maximal, trial, k);
      k <= r.failures <= MaxFailures(start, maximal) + 1 &&
      (forall j :: 0 <= j < r.failures ==> !trial(j) && Cumulated(start, j) < maximal) &&
      (r.succeeded ==> trial(r.failures) && Cumulated(start, r.failures) < maximal) &&
      (!r.succeeded ==> Cumulated(start, r.failures) >= maximal)
    decreases MaxFailures(start, maximal) + 1 - k
  {
    if k > 0 { FailuresBounded(start, maximal, k - 1); }
    if Cumulated(start, k) < maximal && !trial(k) {
      FailuresBounded(start, maximal, k);
      LadderFromFacts(start, maximal, trial, k + 1);
    }
  }

  /** What a run of the ladder established: every earlier attempt failed
      below the ceiling; it stopped either on the first attempt that
      factorises (still below the ceiling) or because the cumulated scaling
      reached the ceiling; and it made at most MaxFailures + 1 failures. */
  lemma LadderStops(start: real, maximal: real, trial: nat -> bool)
    requires start > 0.0
    ensures var r := Ladder(start, maximal, trial);
      r.failures <= MaxFailures(start, maximal) + 1 &&
      (forall j :: 0 <= j < r.failures ==> !trial(j) && Cumulated(start, j) < maximal) &&
      (r.succeeded <==> trial(r.failures) && Cumulated(start, r.failures) < maximal)
  {
    LadderFromFacts(start, maximal, trial, 0);
  }

  /** The exception test after the ladder, as the source writes it: on the
      final scaling, not on the cumulated scaling or the outcome. */
  predicate RaisesAsWritten(start: real, maximal: real, r: Attempts) {
    Scaling(start, r.failures) >= maximal
  }

  /** The exception test as evidently intended: no factorisation found. */
  predicate Raises(r: Attempts) {
    !r.succeeded
  }

  /** The written test raises whenever the intended one does. */
  lemma RaisesAsWrittenCoversFailure(start: real, maximal: real, trial: nat -> bool)
    requires start > 0.0
    ensures Raises(Ladder(start, maximal, trial)) ==>
              RaisesAsWritten(start, maximal, Ladder(start, maximal, trial))
  {
    var r := Ladder(start, maximal, trial);
    LadderFromFacts(start, maximal, trial, 0);
    GeometricSeries(start, r.failures);
  }

  /** ...but it also raises after a successful factorisation: starting at
      1 with ceiling 8, three failures bring the cumulated scaling to 7,
      the fourth attempt factorises, and the scaling is then 8. */
  lemma RaisesAsWrittenAfterSuccess()
    ensures var trial := (k: nat) => k >= 3;
      var r := Ladder(1.0, 8.0, trial);
      r == Attempts(true, 3) && !Raises(r) && RaisesAsWritten(1.0, 8.0, r)
  {
    var trial := (k: nat) => k >= 3;
    assert Cumulated(1.0, 3) == 7.0;
    assert LadderFrom(1.0, 8.0, trial, 3) == Attempts(true, 3);
    assert LadderFrom(1.0, 8.0, trial, 2) == Attempts(true, 3);
    assert LadderFrom(1.0, 8.0, trial, 1) == Attempts(true, 3);
  }

  // ---------------------------------------------------------------------
  // The dense (LAPACK) ladder.

  /** Attempt k of the dense ladder factorises the discretised matrix with
      the cumulated scaling of k failures added to its diagonal. */
  function DenseTrial(M: Matrix, start: real, cholesky: Matrix -> Option<Triangular>): nat -> bool {
    (k: nat) => cholesky(Shifted(M, Cumulated(start, k))).Some?
  }

  /** The retry loop of computeLapackLogDeterminantCholesky on the matrix C,
      regularised in place.  It returns the factor found (if any), the final
      scaling and the final cumulated scaling; C ends up shifted on its
      diagonal by exactly the cumulated scaling. */
  method RegularizeDense(C: array2<real>, start: real, maximal: real, cholesky: Matrix -> Option<Triangular>)
    returns (factor: Option<Triangular>, scaling: real, cumulated: real)
    requires C.Length0 == C.Length1 && start > 0.0
    modifies C
    ensures var r := Ladder(start, maximal, DenseTrial(old(Rows(C)), start, cholesky));
      factor.Some? == r.succeeded &&
      scaling == Scaling(start, r.failures) && cumulated == Cumulated(start, r.failures)
    ensures Rows(C) == Shifted(old(Rows(C)), cumulated)
    ensures factor.Some? ==> factor == cholesky(Rows(C))
  {
    ghost var M := Rows(C);
    ghost var trial := DenseTrial(M, start, cholesky);
    ghost var k := 0;
    var continuation := true;
    factor := None;
    cumulated := 0.0;
    scaling := start;
    ShiftedZero(M);
    while continuation && cumulated < maximal
      invariant scaling == Scaling(start, k) && cumulated == Cumulated(start, k)
      invariant Rows(C) == Shifted(M, cumulated)
      invariant continuation ==> factor.None?
      invariant !continuation ==> factor.Some? && factor == cholesky(Rows(C))
      invariant !continuation ==> Ladder(start, maximal, trial) == Attempts(true, k)
      invariant continuation ==> Ladder(start, maximal, trial) == LadderFrom(start, maximal, trial, k)
      decreases continuation, MaxFailures(start, maximal) + 1 - k
    {
      FailuresBounded(start, maximal, k);
      var attempt := cholesky(Rows(C));
      if attempt.Some? {
        factor := attempt;
        continuation := false;
      } else {
        ShiftedTwice(M, cumulated, scaling);
        cumulated := cumulated + scaling;
        AddToDiagonal(C, Constant(C.Length0, scaling));
        scaling := scaling * 2.0;
        k := k + 1;
      }
    }
  }

  // ---------------------------------------------------------------------
  // The hierarchical-matrix ladder.

  /** A compression epsilon after k failures: divided by 10 on each. */
  function Tenth(epsilon: real, k: nat): real {
    if k == 0 then epsilon else Tenth(epsilon, k - 1) / 10.0
  }

  function Pow10(k: nat): (p: nat)
    ensures p >= 1
  {
    if k == 0 then 1 else 10 * Pow10(k - 1)
  }

  /** After k failures an epsilon is its starting value divided by 10^k. */
  lemma {:induction false} TenthClosedForm(epsilon: real, k: nat)
    ensures Tenth(epsilon, k) * (Pow10(k) as real) == epsilon
  {
    if k > 0 {
      TenthClosedForm(epsilon, k - 1);
      var p := Pow10(k - 1) as real;
      assert Tenth(epsilon, k) * (10.0 * p) == (Tenth(epsilon, k) * 10.0) * p;
    }
  }

  /** Attempt k assembles the hierarchical matrix with the cumulated
      scaling of k failures and both epsilons divided by 10^k, then
      factorises it. */
  function HMatTrial(start: real, assembly: real, recompression: real,
                     factorize: (real, real, real) -> Option<Triangular>): nat -> bool {
    (k: nat) => factorize(Cumulated(start, k), Tenth(assembly, k), Tenth(recompression, k)).Some?
  }

  /** The hierarchical parameters of an attempt: the two epsilons. */
  datatype Compression = Compression(assembly: real, recompression: real)

  /** The retry loop of computeHMatLogDeterminantCholesky.  The matrix is
      rebuilt on every attempt from the cumulated scaling and the current
      epsilons, so nothing is updated in place but those values. */
  method RegularizeHMat(start: real, maximal: real, initial: Compression,
                        factorize: (real, real, real) -> Option<Triangular>)
    returns (factor: Option<Triangular>, scaling: real, cumulated: real, final: Compression)
    requires start > 0.0
    ensures var r := Ladder(start, maximal, HMatTrial(start, initial.assembly, initial.recompression, factorize));
      factor.Some? == r.succeeded &&
      scaling == Scaling(start, r.failures) && cumulated == Cumulated(start, r.failures) &&
      final == Compression(Tenth(initial.assembly, r.failures), Tenth(initial.recompression, r.failures))
    ensures factor.Some? ==> factor == factorize(cumulated, final.assembly, final.recompression)
  {
    ghost var trial := HMatTrial(start, initial.assembly, initial.recompression, factorize);
    ghost var k := 0;
    var continuation := true;
    factor := None;
    cumulated := 0.0;
    scaling := start;
    final := initial;
    while continuation && cumulated < maximal
      invariant scaling == Scaling(start, k) && cumulated == Cumulated(start, k)
      invariant final == Compression(Tenth(initial.assembly, k), Tenth(initial.recompression, k))
      invariant continuation ==> factor.None?
      invariant !continuation ==> factor.Some? && factor == factorize(cumulated, final.assembly, final.recompression)
      invariant !continuation ==> Ladder(start, maximal, trial) == Attempts(true, k)
      invariant continuation ==> Ladder(start, maximal, trial) == LadderFrom(start, maximal, trial, k)
      decreases continuation, MaxFailures(start, maximal) + 1 - k
    {
      FailuresBounded(start, maximal, k);
      var attempt := factorize(cumulated, final.assembly, final.recompression);
      if attempt.Some? {
        factor := attempt;
        continuation := false;
      } else {
        cumulated := cumulated + scaling;
        scaling := scaling * 2.0;
        final := Compression(final.assembly / 10.0, final.recompression / 10.0);
        k := k + 1;
      }
    }
  }

  // ---------------------------------------------------------------------
  // Observation noise.

  /** The diagonal the noise loop adds as the source writes it: entry i of
      the noise for every diagonal entry i of C, which needs at least as
      many noise values as C has rows. */
  function NoiseDiagonalAsWritten(noise: seq<real>, dimension: nat): (v: seq<real>)
    requires dimension <= |noise|
    ensures |v| == dimension && v == noise[..dimension]
  {
    noise[..dimension]
  }

  /** The noise holds one value per sample point while C has one row per
      point and output marginal (as many as NoiseDiagonal has entries):
      with more than one marginal, row |noise| is a row of C, so the
      written loop reads past the end of the noise and
      NoiseDiagonalAsWritten's requires fails for C's dimension. */
  lemma NoiseAsWrittenOutOfRange(noise: seq<real>, outputDimension: nat)
    requires |noise| > 0 && outputDimension > 1
    ensures var rows := |NoiseDiagonal(noise, outputDimension)|;
      |noise| < rows && !(rows <= |noise|)
  {
    Design.MulLe(2, outputDimension, |noise|);
  }

  /** The diagonal the noise loop evidently means: the noise of sample
      point r / d on each of the d rows that belong to that point. */
  function NoiseDiagonal(noise: seq<real>, d: nat): (v: seq<real>)
    ensures |v| == |noise| * d
    ensures forall r :: 0 <= r < |v| ==> r / d < |noise| && v[r] == noise[r / d]
  {
    seq(|noise| * d, r requires 0 <= r < |noise| * d => NoiseOfRow(noise, d, r))
  }

  /** The noise of the sample point row r belongs to. */
  function NoiseOfRow(noise: seq<real>, d: nat, r: nat): (x: real)
    requires r < |noise| * d
    ensures r / d < |noise| && x == noise[r / d]
  {
    Design.RowInRange(r, |noise|, d);
    noise[r / d]
  }

  /** With a single output marginal the two readings coincide. */
  lemma NoiseDiagonalScalar(noise: seq<real>)
    ensures NoiseDiagonal(noise, 1) == NoiseDiagonalAsWritten(noise, |noise|)
  {
    var v := NoiseDiagonal(noise, 1);
    assert |v| == |noise|;
  }

  // ---------------------------------------------------------------------
  // The log-determinant loop.

  /** The sum of the logarithms of the diagonal entries. */
  function SumLog(diagonal: seq<real>, log: real -> real): real {
    if diagonal == [] then 0.0
    else SumLog(diagonal[..|diagonal| - 1], log) + log(diagonal[|diagonal| - 1])
  }

  predicate AllPositive(diagonal: seq<real>) {
    forall i :: 0 <= i < |diagonal| ==> diagonal[i] > 0.0
  }

  /** The log-determinant of C from the diagonal of its Cholesky factor:
      twice the sum of the logarithms, or the sentinel as soon as an entry
      is not positive (-LogMax on the dense path, +Max on the
      hierarchical one). */
  method LogDeterminant(diagonal: seq<real>, log: real -> real, sentinel: real) returns (r: real)
    ensures AllPositive(diagonal) ==> r == 2.0 * SumLog(diagonal, log)
    ensures !AllPositive(diagonal) ==> r == sentinel
  {
    var logDetL := 0.0;
    for i := 0 to |diagonal|
      invariant AllPositive(diagonal[..i])
      invariant logDetL == SumLog(diagonal[..i], log)
    {
      var lii := diagonal[i];
      if lii <= 0.0 {
        assert !AllPositive(diagonal) by { assert diagonal[i] <= 0.0; }
        return sentinel;
      }
      assert diagonal[..i + 1] == diagonal[..i] + [lii];
      logDetL := logDetL + log(lii);
    }
    assert diagonal[..|diagonal|] == diagonal;
    return 2.0 * logDetL;
  }

  /** A triangular factor of dimension n, by its entries: square by
      construction. */
  datatype Triangular = Triangular(dimension: nat, entry: (nat, nat) -> real)

  /** The diagonal of a factor: L(i, i) for i < n. */
  function Diagonal(L: Triangular): (d: seq<real>)
    ensures |d| == L.dimension && forall i :: 0 <= i < L.dimension ==> d[i] == L.entry(i, i)
  {
    seq(L.dimension, i requires 0 <= i < L.dimension => L.entry(i, i))
  }
}
