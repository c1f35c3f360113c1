/** The covariance model as the fitting engine sees it: spatial and output
    dimensions, a parameter vector with a description, the indices of the
    active parameters and an amplitude.  How a model evaluates or
    discretises itself is not modelled; neither is the parameterisation of
    the product and tensorised wrappers, which a `Composer` supplies. */
module CovarianceModels {
  import opened Common

  /** The parameter bookkeeping of a model: one description and one value
      per parameter, the active parameter indices and the amplitude. */
  datatype Layout = Layout(
    description: seq<string>,
    values: seq<real>,
    active: seq<nat>,
    amplitude: seq<real>)

  ghost predicate Distinct(s: seq<nat>) {
    forall i, j :: 0 <= i < j < |s| ==> s[i] != s[j]
  }

  /** Descriptions and values are parallel and each active index names a
      parameter, at most once. */
  ghost predicate LayoutWellFormed(l: Layout) {
    && |l.description| == |l.values|
    && (forall i :: 0 <= i < |l.active| ==> l.active[i] < |l.description|)
    && Distinct(l.active)
  }

  /** A model given by the caller, or one of the two wrappers built by the
      fitting engine: the product of `count` copies of a model (one factor
      per input axis) and the tensorisation of `count` copies of a model
      (one marginal per output component). */
  datatype CovarianceModel =
    | Given(spatialDim: nat, dim: nat, layout: Layout)
    | Product(count: nat, factor: CovarianceModel, layout: Layout)
    | Tensorized(count: nat, marginal: CovarianceModel, layout: Layout)
  {
    /** Product: the spatial dimensions of the factors add up and the
        output is scalar.  Tensorisation: the marginals share the spatial
        dimension and their output dimensions add up. */
    function SpatialDimension(): nat {
      match this
      case Given(s, _, _) => s
      case Product(n, f, _) => Copies(n, f.SpatialDimension())
      case Tensorized(_, g, _) => g.SpatialDimension()
    }

    function Dimension(): nat {
      match this
      case Given(_, d, _) => d
      case Product(_, _, _) => 1
      case Tensorized(n, g, _) => Copies(n, g.Dimension())
    }

    ghost predicate WellFormed() { LayoutWellFormed(layout) }

    /** getParameter().getSize(): the number of active parameters. */
    function ParameterSize(): nat { |layout.active| }

    /** getParameterDescription(): descriptions of the active parameters. */
    function ParameterDescription(): (d: seq<string>)
      requires WellFormed()
      ensures |d| == ParameterSize()
      ensures forall i :: 0 <= i < |d| ==> d[i] == layout.description[layout.active[i]]
    {
      Pick(layout.description, layout.active)
    }

    /** getParameter(): values of the active parameters. */
    function Parameter(): (p: seq<real>)
      requires WellFormed()
      ensures |p| == ParameterSize()
      ensures forall i :: 0 <= i < |p| ==> p[i] == layout.values[layout.active[i]]
    {
      Pick(layout.values, layout.active)
    }

    function WithLayout(l: Layout): CovarianceModel {
      match this
      case Given(s, d, _) => Given(s, d, l)
      case Product(n, f, _) => Product(n, f, l)
      case Tensorized(n, g, _) => Tensorized(n, g, l)
    }

    /** setActiveParameter */
    function SetActiveParameter(indices: seq<nat>): (m: CovarianceModel)
      requires WellFormed()
      requires forall i :: 0 <= i < |indices| ==> indices[i] < |layout.description|
      requires Distinct(indices)
      ensures m.WellFormed() && m.ParameterSize() == |indices|
      ensures m.layout == layout.(active := indices)
      ensures m.SpatialDimension() == SpatialDimension() && m.Dimension() == Dimension()
    {
      WithLayout(layout.(active := indices))
    }

    /** setAmplitude */
    function SetAmplitude(a: seq<real>): (m: CovarianceModel)
      ensures m.layout == layout.(amplitude := a)
      ensures m.SpatialDimension() == SpatialDimension() && m.Dimension() == Dimension()
      ensures WellFormed() ==> m.WellFormed()
    {
      WithLayout(layout.(amplitude := a))
    }

    /** setParameter: the i-th given value goes to the i-th active parameter. */
    function SetParameter(p: seq<real>): (m: CovarianceModel)
      requires WellFormed() && |p| == ParameterSize()
      ensures m.WellFormed() && m.layout.active == layout.active
      ensures m.layout.description == layout.description && m.layout.amplitude == layout.amplitude
      ensures m.SpatialDimension() == SpatialDimension() && m.Dimension() == Dimension()
      ensures m.Parameter() == p
    {
      var v := AssignAt(layout.values, layout.active, p);
      var m := WithLayout(layout.(values := v));
      assert forall i :: 0 <= i < |p| ==> m.Parameter()[i] == p[i];
      m
    }
  }

  /** The entries of s at the positions idx, in that order. */
  function Pick<T>(s: seq<T>, idx: seq<nat>): (p: seq<T>)
    requires forall i :: 0 <= i < |idx| ==> idx[i] < |s|
    ensures |p| == |idx|
    ensures forall i :: 0 <= i < |idx| ==> p[i] == s[idx[i]]
  {
    if idx == [] then [] else Pick(s, idx[..|idx| - 1]) + [s[idx[|idx| - 1]]]
  }

  /** n copies of a dimension d side by side. */
  function Copies(n: nat, d: nat): (r: nat)
    ensures d == 1 ==> r == n
  {
    if n == 0 then 0 else d + Copies(n - 1, d)
  }

  /** values with values[idx[i]] replaced by p[i] for every i; the other
      entries are kept. */
  function AssignAt(values: seq<real>, idx: seq<nat>, p: seq<real>): (r: seq<real>)
    requires |idx| == |p| && Distinct(idx)
    requires forall i :: 0 <= i < |idx| ==> idx[i] < |values|
    ensures |r| == |values|
    ensures forall i :: 0 <= i < |idx| ==> r[idx[i]] == p[i]
    ensures forall k :: 0 <= k < |values| && k !in idx ==> r[k] == values[k]
    decreases |idx|
  {
    if idx == [] then values
    else
      var rest := AssignAt(values, idx[1..], p[1..]);
      assert forall i :: 0 <= i < |idx| - 1 ==> idx[1..][i] != idx[0];
      rest[idx[0] := p[0]]
  }

  /** The parameterisation of the wrappers, supplied from outside: the
      layout of the product of n copies of a model, and of the
      tensorisation of n copies of a model. */
  datatype Composer = Composer(
    product: (nat, CovarianceModel) -> Layout,
    tensorized: (nat, CovarianceModel) -> Layout)

  ghost predicate ComposerValid(c: Composer) {
    && (forall n, m :: LayoutWellFormed(c.product(n, m)))
    && (forall n, m :: LayoutWellFormed(c.tensorized(n, m)))
  }

  function ProductOf(n: nat, m: CovarianceModel, c: Composer): CovarianceModel {
    Product(n, m, c.product(n, m))
  }

  function TensorizationOf(n: nat, m: CovarianceModel, c: Composer): CovarianceModel {
    Tensorized(n, m, c.tensorized(n, m))
  }

  /** The four admissible shapes of a user model for a problem of input
      dimension `inputDim` and output dimension `outputDim`. */
  predicate SameShape(m: CovarianceModel, inputDim: nat, outputDim: nat) {
    m.SpatialDimension() == inputDim && m.Dimension() == outputDim
  }
  predicate ProductShape(m: CovarianceModel, inputDim: nat, outputDim: nat) {
    m.SpatialDimension() == 1 && m.Dimension() == outputDim && m.Dimension() == 1
  }
  predicate TensorShape(m: CovarianceModel, inputDim: nat, outputDim: nat) {
    m.SpatialDimension() == inputDim && m.Dimension() == 1
  }
  predicate TensorOfProductsShape(m: CovarianceModel, inputDim: nat, outputDim: nat) {
    m.SpatialDimension() == 1 && m.Dimension() == 1
  }

  /** setCovarianceModel's shape dispatch (cases tried in order): the
      model as it is, a product of inputDim copies, a tensorisation of
      outputDim copies, or a tensorisation of outputDim products of
      inputDim copies; any other shape is a dimension error. */
  function Adapt(m: CovarianceModel, inputDim: nat, outputDim: nat, c: Composer): (r: Result<CovarianceModel>)
    ensures r.Ok? <==>
              || SameShape(m, inputDim, outputDim) || ProductShape(m, inputDim, outputDim)
              || TensorShape(m, inputDim, outputDim) || TensorOfProductsShape(m, inputDim, outputDim)
    ensures r.Err? ==> r.error == InvalidArgument
    ensures r.Ok? ==> r.value.SpatialDimension() == inputDim && r.value.Dimension() == outputDim
    ensures r.Ok? && SameShape(m, inputDim, outputDim) ==> r.value == m
    ensures (m.WellFormed() && ComposerValid(c) && r.Ok?) ==> r.value.WellFormed()
  {
    var sameDimension := outputDim == m.Dimension();
    var unitModelDimension := m.Dimension() == 1;
    var sameSpatialDimension := inputDim == m.SpatialDimension();
    var unitModelSpatialDimension := m.SpatialDimension() == 1;
    if sameSpatialDimension && sameDimension then Ok(m)
    else if unitModelSpatialDimension && sameDimension && unitModelDimension then Ok(ProductOf(inputDim, m, c))
    else if sameSpatialDimension && unitModelDimension then Ok(TensorizationOf(outputDim, m, c))
    else if unitModelSpatialDimension && unitModelDimension then
      Ok(TensorizationOf(outputDim, ProductOf(inputDim, m, c), c))
    else Err(InvalidArgument)
  }

  /** The description the analytical-amplitude option looks for. */
  const AmplitudeName: string := "amplitude_0"

  /** The first position of x in s, if any. */
  function FirstIndexOf(s: seq<string>, x: string): (r: Option<nat>)
    ensures r.None? <==> x !in s
    ensures r.Some? ==> r.value < |s| && s[r.value] == x && x !in s[..r.value]
  {
    if s == [] then None
    else if s[0] == x then Some(0)
    else match FirstIndexOf(s[1..], x)
      case None => None
      case Some(i) => assert s[..i + 1] == [s[0]] + s[1..][..i]; Some(i + 1)
  }

  /** The scan of setCovarianceModel for the first active parameter
      described as amplitude_0 (the loop that stops at the first match). */
  method FindAmplitudeIndex(description: seq<string>) returns (found: bool, index: nat)
    ensures found <==> AmplitudeName in description
    ensures found ==> FirstIndexOf(description, AmplitudeName) == Some(index)
  {
    var i := 0;
    while i < |description|
      invariant 0 <= i <= |description|
      invariant AmplitudeName !in description[..i]
    {
      if description[i] == AmplitudeName {
        assert description[..i + 1] == description[..i] + [description[i]];
        FirstIndexIsUnique(description, AmplitudeName, i);
        return true, i;
      }
      assert description[..i + 1] == description[..i] + [description[i]];
      i := i + 1;
    }
    assert description[..i] == description;
    return false, 0;
  }

  lemma FirstIndexIsUnique(s: seq<string>, x: string, i: nat)
    requires i < |s| && s[i] == x && x !in s[..i]
    ensures FirstIndexOf(s, x) == Some(i)
  {
  }

  lemma EraseKeepsDistinct(s: seq<nat>, i: nat)
    requires i < |s| && Distinct(s)
    ensures Distinct(Erase(s, i))
  {
    var e := Erase(s, i);
    forall a, b | 0 <= a < b < |e| ensures e[a] != e[b] {
      var a' := if a < i then a else a + 1;
      var b' := if b < i then b else b + 1;
      assert e[a] == s[a'] && e[b] == s[b'] && a' < b';
    }
  }

  /** The reduced working copy of the adapted model, and whether the
      amplitude is then recovered by the analytical formula. */
  datatype Reduction = Reduction(model: CovarianceModel, analyticalAmplitude: bool)

  /** setCovarianceModel's reduction.  Without optimisation no parameter
      is active.  With optimisation, the analytical-amplitude option and a
      scalar model whose active parameters include amplitude_0, exactly the
      first such position is removed from the active set (the others keep
      their order) and the amplitude is set to 1.  Otherwise the model is
      kept as it is. */
  function Reduce(m: CovarianceModel, optimize: bool, useAnalytical: bool): (r: Reduction)
    requires m.WellFormed()
    ensures r.model.WellFormed()
    ensures r.model.SpatialDimension() == m.SpatialDimension() && r.model.Dimension() == m.Dimension()
    ensures r.analyticalAmplitude <==>
              optimize && useAnalytical && m.Dimension() == 1 && AmplitudeName in m.ParameterDescription()
    ensures !optimize ==> r.model == m.WithLayout(m.layout.(active := [])) && r.model.ParameterSize() == 0
    ensures optimize && !r.analyticalAmplitude ==> r.model == m
    ensures r.analyticalAmplitude ==>
              var i := FirstIndexOf(m.ParameterDescription(), AmplitudeName).value;
              && r.model == m.WithLayout(m.layout.(active := Erase(m.layout.active, i), amplitude := [1.0]))
              && r.model.ParameterDescription() == Erase(m.ParameterDescription(), i)
              && r.model.ParameterSize() + 1 == m.ParameterSize()
  {
    if !optimize then Reduction(m.SetActiveParameter([]), false)
    else if useAnalytical && m.Dimension() == 1 then
      match FirstIndexOf(m.ParameterDescription(), AmplitudeName)
      case None => Reduction(m, false)
      case Some(i) =>
        EraseKeepsDistinct(m.layout.active, i);
        var reduced := m.SetActiveParameter(Erase(m.layout.active, i)).SetAmplitude([1.0]);
        assert reduced.ParameterDescription() == Erase(m.ParameterDescription(), i);
        Reduction(reduced, true)
    else Reduction(m, false)
  }
}
