/** The trend part of the fitting engine: the layout of the design matrix
    built from one basis per output marginal, and the partition of the
    flat trend-coefficient vector back into one vector per marginal. */
module Design {
  import opened Common

  /** A basis function, reduced to its output dimension and the first
      component of its value at a point (the only component the design
      matrix uses).  Evaluating it is the caller's business. */
  datatype BasisFunction = BasisFunction(outputDimension: nat, value: Point -> real)

  type Basis = seq<BasisFunction>

  /** The column of the design matrix where marginal k's basis starts:
      the sizes of the bases of the marginals before k, added up. */
  function Offset(bs: seq<Basis>, k: nat): nat
    requires k <= |bs|
  {
    if k == 0 then 0 else Offset(bs, k - 1) + |bs[k - 1]|
  }

  /** The number of columns of the design matrix. */
  function TotalSize(bs: seq<Basis>): nat { Offset(bs, |bs|) }

  lemma {:induction false} OffsetMonotone(bs: seq<Basis>, k: nat, l: nat)
    requires k <= l <= |bs|
    ensures Offset(bs, k) <= Offset(bs, l)
    decreases l - k
  {
    if k < l { OffsetMonotone(bs, k, l - 1); }
  }

  /** The marginal whose basis holds column c of the first n marginals. */
  function OwnerIn(bs: seq<Basis>, n: nat, c: nat): (k: nat)
    requires n <= |bs| && c < Offset(bs, n)
    ensures k < n && Offset(bs, k) <= c < Offset(bs, k + 1)
  {
    if c >= Offset(bs, n - 1) then n - 1 else OwnerIn(bs, n - 1, c)
  }

  function Owner(bs: seq<Basis>, c: nat): (k: nat)
    requires c < TotalSize(bs)
    ensures k < |bs| && Offset(bs, k) <= c < Offset(bs, k + 1)
  {
    OwnerIn(bs, |bs|, c)
  }

  /** Column Offset(bs, k) + j belongs to marginal k, and to no other. */
  lemma OwnerOfColumn(bs: seq<Basis>, k: nat, j: nat)
    requires k < |bs| && j < |bs[k]|
    ensures Offset(bs, k) + j < TotalSize(bs)
    ensures Owner(bs, Offset(bs, k) + j) == k
  {
    var c := Offset(bs, k) + j;
    OffsetStep(bs, k);
    OffsetMonotone(bs, k + 1, |bs|);
    var o := Owner(bs, c);
    OwnerUnique(bs, o, k, c);
  }

  lemma OffsetStep(bs: seq<Basis>, k: nat)
    requires k < |bs|
    ensures Offset(bs, k + 1) == Offset(bs, k) + |bs[k]|
  {
  }

  /** The column ranges of distinct marginals do not overlap. */
  lemma OwnerUnique(bs: seq<Basis>, a: nat, b: nat, c: nat)
    requires a < |bs| && b < |bs|
    requires Offset(bs, a) <= c < Offset(bs, a + 1) && Offset(bs, b) <= c < Offset(bs, b + 1)
    ensures a == b
  {
    if a < b {
      OffsetMonotone(bs, a + 1, b);
    } else if b < a {
      OffsetMonotone(bs, b + 1, a);
    }
  }

  lemma {:induction false} MulLe(a: nat, b: nat, d: nat)
    requires a <= b
    ensures a * d <= b * d
    decreases b - a
  {
    if a < b {
      MulLe(a, b - 1, d);
      assert b * d == (b - 1) * d + d;
    }
  }

  /** Euclidean division is unique: r = q*d + m with m < d fixes both. */
  lemma DivModUnique(r: nat, d: nat, q: nat, m: nat)
    requires m < d && r == q * d + m
    ensures r / d == q && r % d == m
  {
    var q', m' := r / d, r % d;
    assert r == q' * d + m';
    if q' < q {
      MulLe(q' + 1, q, d);
    } else if q' > q {
      MulLe(q + 1, q', d);
    }
  }

  /** Row k + i*d of a matrix with d rows per sample point belongs to
      point i and marginal k. */
  lemma RowOf(k: nat, i: nat, d: nat)
    requires k < d
    ensures (k + i * d) / d == i && (k + i * d) % d == k
  {
    DivModUnique(k + i * d, d, i, k);
  }

  lemma RowOfInverse(r: nat, d: nat)
    requires d > 0
    ensures r == r % d + (r / d) * d
  {
  }

  /** The rows of marginal m among the first i + 1 points are those among
      the first i points and row m + i*d. */
  lemma RowStep(r: nat, m: nat, i: nat, d: nat)
    requires m < d
    ensures (r % d == m && r / d < i + 1) == ((r % d == m && r / d < i) || r == m + i * d)
  {
    if r == m + i * d {
      RowOf(m, i, d);
    } else if r % d == m && r / d == i {
      RowOfInverse(r, d);
    }
  }

  lemma RowInRange(r: nat, n: nat, d: nat)
    requires r < n * d
    ensures d > 0 && r / d < n
  {
    if d > 0 {
      var q := r / d;
      assert r == q * d + r % d;
      if q >= n { MulLe(n, q, d); }
    }
  }

  lemma TopRowInRange(k: nat, i: nat, n: nat, d: nat)
    requires k < d && i < n
    ensures k + i * d < n * d
  {
    MulLe(i + 1, n, d);
    assert (i + 1) * d == i * d + d;
  }

  /** A basis collection fits an output dimension d when it is empty (no
      trend) or holds one basis per output marginal. */
  predicate BasisFits(bs: seq<Basis>, d: nat) { |bs| == 0 || |bs| == d }

  /** The entry of the design matrix at row r and column c: the value of
      the column's basis function at the row's sample point when the row
      belongs to the column's marginal, and zero otherwise. */
  function DesignEntry(bs: seq<Basis>, points: seq<Point>, d: nat, r: nat, c: nat): real
    requires BasisFits(bs, d) && r < |points| * d && c < TotalSize(bs)
  {
    var k := Owner(bs, c);
    if r % d == k then bs[k][c - Offset(bs, k)].value(PointOf(points, d, r)) else 0.0
  }

  /** The sample point a row of the design matrix belongs to: rows are
      grouped by point, d consecutive rows (one per marginal) per point. */
  function PointOf(points: seq<Point>, d: nat, r: nat): (p: Point)
    requires r < |points| * d
    ensures d > 0 && r / d < |points| && p == points[r / d]
  {
    RowInRange(r, |points|, d);
    points[r / d]
  }

  /** What the design matrix holds, in the terms of the layout: column
      Offset(k) + j carries basis function j of marginal k at the rows
      k + i*d, and zero at every row of another marginal. */
  lemma DesignEntryLayout(bs: seq<Basis>, points: seq<Point>, d: nat, k: nat, j: nat, i: nat)
    requires |bs| == d && k < d && j < |bs[k]| && i < |points|
    ensures k + i * d < |points| * d && Offset(bs, k) + j < TotalSize(bs)
    ensures DesignEntry(bs, points, d, k + i * d, Offset(bs, k) + j) == bs[k][j].value(points[i])
  {
    TopRowInRange(k, i, |points|, d);
    OwnerOfColumn(bs, k, j);
    RowOf(k, i, d);
  }

  lemma DesignEntryZero(bs: seq<Basis>, points: seq<Point>, d: nat, r: nat, c: nat)
    requires BasisFits(bs, d) && r < |points| * d && c < TotalSize(bs)
    requires r % d != Owner(bs, c)
    ensures DesignEntry(bs, points, d, r, c) == 0.0
  {
  }

  /** The design matrix holds its final entries in the columns before
      `index` and is still zero in the others. */
  ghost predicate FilledUpTo(F: array2<real>, bs: seq<Basis>, points: seq<Point>, d: nat, index: nat)
    requires BasisFits(bs, d)
    reads F
  {
    F.Length0 == |points| * d && F.Length1 == TotalSize(bs) &&
    forall r, c :: 0 <= r < F.Length0 && 0 <= c < F.Length1 ==>
      F[r, c] == if c < index then DesignEntry(bs, points, d, r, c) else 0.0
  }

  /** computeF: a matrix of |points|*d rows and TotalSize(bs) columns,
      zero-initialised, then filled marginal by marginal and basis
      function by basis function with a running column index. */
  method BuildDesignMatrix(bs: seq<Basis>, points: seq<Point>, d: nat) returns (F: array2<real>)
    requires BasisFits(bs, d)
    ensures F.Length0 == |points| * d && F.Length1 == TotalSize(bs)
    ensures forall r, c :: 0 <= r < F.Length0 && 0 <= c < F.Length1 ==>
              F[r, c] == DesignEntry(bs, points, d, r, c)
  {
    var n := |points|;
    var total := TotalSize(bs);
    F := new real[n * d, total]((_, _) => 0.0);
    assert FilledUpTo(F, bs, points, d, 0);
    if total == 0 { return; }
    var index := 0;
    var m := 0;
    while m < d
      invariant 0 <= m <= d && |bs| == d
      invariant index == Offset(bs, m)
      invariant FilledUpTo(F, bs, points, d, index)
    {
      var j := 0;
      OffsetMonotone(bs, m + 1, |bs|);
      while j < |bs[m]|
        invariant 0 <= j <= |bs[m]|
        invariant index == Offset(bs, m) + j
        invariant FilledUpTo(F, bs, points, d, index)
      {
        FillColumn(F, bs, points, d, m, j);
        j := j + 1;
        index := index + 1;
      }
      m := m + 1;
    }
    assert index == total;
  }

  /** The innermost loop of computeF: basis function j of marginal m,
      evaluated at every sample point, written to the rows of marginal m
      in column Offset(m) + j. */
  method FillColumn(F: array2<real>, bs: seq<Basis>, points: seq<Point>, d: nat, m: nat, j: nat)
    requires |bs| == d && m < d && j < |bs[m]|
    requires FilledUpTo(F, bs, points, d, Offset(bs, m) + j)
    modifies F
    ensures FilledUpTo(F, bs, points, d, Offset(bs, m) + j + 1)
  {
    var n := |points|;
    var index := Offset(bs, m) + j;
    OwnerOfColumn(bs, m, j);
    ColumnStart(F, bs, points, d, m, index);
    var i := 0;
    while i < n
      invariant 0 <= i <= n
      invariant F.Length0 == n * d && F.Length1 == TotalSize(bs)
      invariant forall r, c :: 0 <= r < n * d && 0 <= c < F.Length1 && c != index ==>
                  F[r, c] == if c < index then DesignEntry(bs, points, d, r, c) else 0.0
      invariant forall r :: 0 <= r < n * d ==>
                  F[r, index] == if r % d == m && r / d < i then DesignEntry(bs, points, d, r, index) else 0.0
    {
      TopRowInRange(m, i, n, d);
      RowOf(m, i, d);
      F[m + i * d, index] := bs[m][j].value(points[i]);
      ColumnStep(F, bs, points, d, m, index, i);
      i := i + 1;
    }
    ColumnDone(F, bs, points, d, m, index);
  }

  /** Before the column at `index` is written, it is zero and the columns
      before it hold their entries. */
  lemma ColumnStart(F: array2<real>, bs: seq<Basis>, points: seq<Point>, d: nat, m: nat, index: nat)
    requires |bs| == d && index < TotalSize(bs) && FilledUpTo(F, bs, points, d, index)
    ensures forall r, c :: 0 <= r < F.Length0 && 0 <= c < F.Length1 && c != index ==>
              F[r, c] == if c < index then DesignEntry(bs, points, d, r, c) else 0.0
    ensures forall r :: 0 <= r < F.Length0 ==>
              F[r, index] == if r % d == m && r / d < 0 then DesignEntry(bs, points, d, r, index) else 0.0
  {
  }

  /** Writing row m + i*d of the column extends its filled rows from the
      first i points to the first i + 1. */
  lemma ColumnStep(F: array2<real>, bs: seq<Basis>, points: seq<Point>, d: nat, m: nat, index: nat, i: nat)
    requires |bs| == d && m < d && index < TotalSize(bs) && i < |points|
    requires F.Length0 == |points| * d && F.Length1 == TotalSize(bs)
    requires m + i * d < F.Length0 && F[m + i * d, index] == DesignEntry(bs, points, d, m + i * d, index)
    requires forall r :: 0 <= r < F.Length0 && r != m + i * d ==>
               F[r, index] == if r % d == m && r / d < i then DesignEntry(bs, points, d, r, index) else 0.0
    ensures forall r :: 0 <= r < F.Length0 ==>
              F[r, index] == if r % d == m && r / d < i + 1 then DesignEntry(bs, points, d, r, index) else 0.0
  {
    forall r | 0 <= r < F.Length0
      ensures F[r, index] == if r % d == m && r / d < i + 1 then DesignEntry(bs, points, d, r, index) else 0.0
    {
      RowStep(r, m, i, d);
    }
  }

  /** Once the column of marginal m at `index` holds its entries at every
      point, the design matrix is filled up to the next column. */
  lemma ColumnDone(F: array2<real>, bs: seq<Basis>, points: seq<Point>, d: nat, m: nat, index: nat)
    requires |bs| == d && m < d && index < TotalSize(bs) && Owner(bs, index) == m
    requires F.Length0 == |points| * d && F.Length1 == TotalSize(bs)
    requires forall r, c :: 0 <= r < F.Length0 && 0 <= c < F.Length1 && c != index ==>
               F[r, c] == if c < index then DesignEntry(bs, points, d, r, c) else 0.0
    requires forall r :: 0 <= r < F.Length0 ==>
               F[r, index] == if r % d == m && r / d < |points| then DesignEntry(bs, points, d, r, index) else 0.0
    ensures FilledUpTo(F, bs, points, d, index + 1)
  {
    forall r, c | 0 <= r < F.Length0 && 0 <= c < F.Length1
      ensures F[r, c] == if c < index + 1 then DesignEntry(bs, points, d, r, c) else 0.0
    {
      if c == index { RowInRange(r, |points|, d); }
    }
  }

  /** The coefficients of every marginal: the slices of the flat vector
      that line up with each marginal's columns of the design matrix. */
  function Slices(beta: seq<real>, bs: seq<Basis>): (s: seq<seq<real>>)
    requires TotalSize(bs) <= |beta|
    ensures |s| == |bs|
    ensures forall k :: 0 <= k < |bs| ==> s[k] == Slice(beta, bs, k)
  {
    SlicesUpTo(beta, bs, |bs|)
  }

  /** The coefficients of the first n marginals. */
  function SlicesUpTo(beta: seq<real>, bs: seq<Basis>, n: nat): (s: seq<seq<real>>)
    requires TotalSize(bs) <= |beta| && n <= |bs|
    ensures |s| == n
    ensures forall k :: 0 <= k < n ==> s[k] == Slice(beta, bs, k)
  {
    if n == 0 then [] else SlicesUpTo(beta, bs, n - 1) + [Slice(beta, bs, n - 1)]
  }

  /** The coefficients of marginal k alone. */
  function Slice(beta: seq<real>, bs: seq<Basis>, k: nat): (s: seq<real>)
    requires TotalSize(bs) <= |beta| && k < |bs|
    ensures Offset(bs, k + 1) <= |beta| && |s| == |bs[k]|
  {
    OffsetMonotone(bs, k + 1, |bs|);
    beta[Offset(bs, k)..Offset(bs, k + 1)]
  }

  function Concat(s: seq<seq<real>>): seq<real> {
    if s == [] then [] else Concat(s[..|s| - 1]) + s[|s| - 1]
  }

  /** Concatenating the per-marginal coefficient vectors in order gives
      back the flat coefficient vector. */
  lemma {:induction false} ConcatSlices(beta: seq<real>, bs: seq<Basis>)
    requires TotalSize(bs) == |beta|
    ensures Concat(Slices(beta, bs)) == beta
  {
    ConcatPrefix(beta, bs, |bs|);
  }

  lemma {:induction false} ConcatPrefix(beta: seq<real>, bs: seq<Basis>, n: nat)
    requires TotalSize(bs) <= |beta| && n <= |bs|
    ensures Offset(bs, n) <= |beta|
    ensures Concat(SlicesUpTo(beta, bs, n)) == beta[..Offset(bs, n)]
  {
    OffsetMonotone(bs, n, |bs|);
    if n > 0 {
      var lo, hi := Offset(bs, n - 1), Offset(bs, n);
      ConcatPrefix(beta, bs, n - 1);
      var u, x := SlicesUpTo(beta, bs, n - 1), Slice(beta, bs, n - 1);
      var t := SlicesUpTo(beta, bs, n);
      assert t == u + [x];
      assert t[..n - 1] == u;
      assert Concat(t) == Concat(u) + x;
      SplitPrefix(beta, lo, hi);
    }
  }

  lemma SplitPrefix<T>(s: seq<T>, lo: nat, hi: nat)
    requires lo <= hi <= |s|
    ensures s[..hi] == s[..lo] + s[lo..hi]
  {
  }

  lemma PrefixStep<T>(s: seq<T>, i: nat)
    requires i < |s|
    ensures s[..i + 1] == s[..i] + [s[i]]
  {
  }

  /** The entry of trendCoefficientsSample at row c and column k: the
      c-th coefficient in the column of the marginal owning it, and zero
      elsewhere (rows past the basis total are all zero). */
  function CoefficientEntry(beta: seq<real>, bs: seq<Basis>, c: nat, k: nat): real
    requires c < |beta|
  {
    if c < TotalSize(bs) && Owner(bs, c) == k then beta[c] else 0.0
  }

  /** trendCoefficientsSample as a value: |beta| rows, one column per
      model output component. */
  function CoefficientRows(beta: seq<real>, bs: seq<Basis>, modelDim: nat): (M: seq<seq<real>>)
    ensures |M| == |beta| && forall c :: 0 <= c < |beta| ==> |M[c]| == modelDim
    ensures forall c, k :: 0 <= c < |beta| && 0 <= k < modelDim ==> M[c][k] == CoefficientEntry(beta, bs, c, k)
  {
    seq(|beta|, c requires 0 <= c < |beta| =>
      seq(modelDim, k requires 0 <= k < modelDim => CoefficientEntry(beta, bs, c, k)))
  }

  /** The trend coefficient sample holds its final rows before row
      `filled` and is still zero in the others. */
  ghost predicate StoredUpTo(sample: array2<real>, beta: seq<real>, bs: seq<Basis>, filled: nat)
    reads sample
  {
    sample.Length0 == |beta| &&
    forall c, k :: 0 <= c < sample.Length0 && 0 <= k < sample.Length1 ==>
      sample[c, k] == if c < filled then CoefficientEntry(beta, bs, c, k) else 0.0
  }

  /** run's coefficient partition: one vector per marginal, and a sample
      of |beta| rows and one column per model output component. */
  method PartitionCoefficients(beta: seq<real>, bs: seq<Basis>, modelDim: nat)
    returns (coefficients: seq<seq<real>>, sample: array2<real>)
    requires TotalSize(bs) <= |beta| && |bs| <= modelDim
    ensures coefficients == Slices(beta, bs)
    ensures sample.Length0 == |beta| && sample.Length1 == modelDim
    ensures forall c, k :: 0 <= c < |beta| && 0 <= k < modelDim ==>
              sample[c, k] == CoefficientEntry(beta, bs, c, k)
  {
    coefficients := [];
    sample := new real[|beta|, modelDim]((_, _) => 0.0);
    var cumulatedSize := 0;
    var outputIndex := 0;
    while outputIndex < |bs|
      invariant 0 <= outputIndex <= |bs| && cumulatedSize == Offset(bs, outputIndex)
      invariant coefficients == SlicesUpTo(beta, bs, outputIndex)
      invariant sample.Length1 == modelDim && StoredUpTo(sample, beta, bs, cumulatedSize)
    {
      coefficients, cumulatedSize := PartitionMarginal(sample, beta, bs, outputIndex, coefficients, cumulatedSize);
      outputIndex := outputIndex + 1;
    }
  }

  /** The inner loop of the partition, for marginal k: its coefficients
      collected in order and appended to those of the marginals before
      it, and each stored in column k of its row. */
  method PartitionMarginal(sample: array2<real>, beta: seq<real>, bs: seq<Basis>, k: nat,
                           before: seq<seq<real>>, start: nat)
    returns (coefficients: seq<seq<real>>, cumulatedSize: nat)
    requires TotalSize(bs) <= |beta| && k < |bs| && k < sample.Length1
    requires before == SlicesUpTo(beta, bs, k)
    requires start == Offset(bs, k) && StoredUpTo(sample, beta, bs, start)
    modifies sample
    ensures coefficients == SlicesUpTo(beta, bs, k + 1)
    ensures cumulatedSize == Offset(bs, k + 1) && StoredUpTo(sample, beta, bs, cumulatedSize)
  {
    OffsetMonotone(bs, k + 1, |bs|);
    cumulatedSize := start;
    var betaI := [];
    var basisElement := 0;
    while basisElement < |bs[k]|
      invariant 0 <= basisElement <= |bs[k]|
      invariant cumulatedSize == start + basisElement
      invariant betaI == beta[start..cumulatedSize]
      invariant StoredUpTo(sample, beta, bs, cumulatedSize)
    {
      PrefixStep(beta[start..], basisElement);
      assert beta[start..][..basisElement] == betaI;
      assert beta[start..][..basisElement + 1] == beta[start..cumulatedSize + 1];
      betaI := betaI + [beta[cumulatedSize]];
      StoreCoefficient(sample, beta, bs, k, basisElement);
      cumulatedSize := cumulatedSize + 1;
      basisElement := basisElement + 1;
    }
    coefficients := before + [betaI];
  }

  /** One step of the partition: coefficient Offset(k) + j goes to
      column k of its row. */
  method StoreCoefficient(sample: array2<real>, beta: seq<real>, bs: seq<Basis>, k: nat, j: nat)
    requires TotalSize(bs) <= |beta| && k < |bs| && j < |bs[k]| && k < sample.Length1
    requires StoredUpTo(sample, beta, bs, Offset(bs, k) + j)
    modifies sample
    ensures StoredUpTo(sample, beta, bs, Offset(bs, k) + j + 1)
  {
    var row := Offset(bs, k) + j;
    OwnerOfColumn(bs, k, j);
    sample[row, k] := beta[row];
    forall c, l | 0 <= c < sample.Length0 && 0 <= l < sample.Length1
      ensures sample[c, l] == if c < row + 1 then CoefficientEntry(beta, bs, c, l) else 0.0
    {
      if c != row || l != k {
        assert sample[c, l] == old(sample[c, l]);
      }
    }
  }
}
