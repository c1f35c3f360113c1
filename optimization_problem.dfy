/** The optimisation-problem state machine: an objective, equality and
    inequality constraints, bounds, a level function and level value, a
    minimisation flag and a dimension.  Setters check dimension
    compatibility; setting a level function switches the problem to the
    "nearest point" mode, any other objective or constraint switches it back. */
module Optim {
  import opened Common

  /** The functions the problem stores, reduced to what the problem itself
      inspects: input and output dimensions and whether the function is an
      actual implementation (a default-constructed function is not). */
  datatype Function =
    | Default
      // Function(): not an actual implementation, dimensions 0
    | User(name: string, inputDim: nat, outputDim: nat)
      // a function supplied by the caller
    | NearestPointObjective(dim: nat)
      // the quadratic x -> x.x built by setLevelFunction
    | LevelConstraint(level: Function, value: real)
      // level(x) - value, built by setNearestPointConstraints
  {
    function InputDimension(): nat {
      match this
      case Default => 0
      case User(_, n, _) => n
      case NearestPointObjective(n) => n
      case LevelConstraint(g, _) => g.InputDimension()
    }

    function OutputDimension(): nat {
      match this
      case Default => 0
      case User(_, _, m) => m
      case NearestPointObjective(_) => 1
      case LevelConstraint(_, _) => 1
    }

    predicate IsActual() { !Default? }
  }

  /** A constraint or bound of dimension k is accepted by a problem of
      dimension n when k is 0 or k equals n. */
  predicate Compatible(k: nat, n: nat) { k == 0 || k == n }

  /** All fields of a problem, as one value. */
  datatype ProblemState = ProblemState(
    objective: Function,
    equalityConstraint: Function,
    inequalityConstraint: Function,
    bounds: Interval,
    levelFunction: Function,
    levelValue: real,
    minimization: bool,
    dimension: nat)

  class OptimizationProblem {
    var objective: Function
    var equalityConstraint: Function
    var inequalityConstraint: Function
    var bounds: Interval
    var levelFunction: Function
    var levelValue: real
    var minimization: bool
    var dimension: nat

    function State(): ProblemState
      reads this
    {
      ProblemState(objective, equalityConstraint, inequalityConstraint, bounds,
                   levelFunction, levelValue, minimization, dimension)
    }

    /** The invariant every public operation keeps: the dimension is the
        objective's input dimension, both constraints are compatible with
        it, and in nearest-point mode the objective and the constraints are
        the ones derived from the level function. */
    ghost predicate Valid()
      reads this
    {
      && dimension == objective.InputDimension()
      && Compatible(equalityConstraint.InputDimension(), dimension)
      && Compatible(inequalityConstraint.InputDimension(), dimension)
      && (HasLevelFunction() ==>
            && levelFunction.OutputDimension() == 1
            && levelFunction.InputDimension() == dimension
            && objective == NearestPointObjective(dimension)
            && equalityConstraint == LevelConstraint(levelFunction, levelValue)
            && inequalityConstraint == Default)
    }

    predicate HasBounds() reads this { bounds.Dimension() > 0 }
    predicate HasLevelFunction() reads this { levelFunction.IsActual() }
    predicate HasEqualityConstraint() reads this { equalityConstraint.IsActual() }
    predicate HasInequalityConstraint() reads this { inequalityConstraint.IsActual() }
    predicate HasMultipleObjective() reads this { objective.OutputDimension() > 1 }

    /** Default constructor: a minimisation problem of dimension 0 with
        nothing set.  The level value is left uninitialised, as in the
        source, so nothing is promised about it. */
    constructor ()
      ensures Valid()
      ensures objective == Default && equalityConstraint == Default
      ensures inequalityConstraint == Default && bounds == EmptyInterval
      ensures levelFunction == Default && !HasLevelFunction()
      ensures minimization && dimension == 0
    {
      objective := Default;
      equalityConstraint := Default;
      inequalityConstraint := Default;
      bounds := EmptyInterval;
      levelFunction := Default;
      minimization := true;
      dimension := 0;
    }

    /** Objective constructor: the dimension is the objective's input
        dimension; constraints, bounds and level function are defaults. */
    constructor FromObjective(f: Function)
      ensures Valid()
      ensures objective == f && dimension == f.InputDimension()
      ensures equalityConstraint == Default && inequalityConstraint == Default
      ensures bounds == EmptyInterval && levelFunction == Default
      ensures minimization
    {
      objective := f;
      equalityConstraint := Default;
      inequalityConstraint := Default;
      bounds := EmptyInterval;
      levelFunction := Default;
      minimization := true;
      dimension := f.InputDimension();
    }

    /** General constructor: validates through the setters in the order
        equality constraint, inequality constraint, bounds, each against
        the objective's input dimension; the first failing check throws. */
    static method General(f: Function, eq: Function, ineq: Function, b: Interval)
      returns (r: Result<OptimizationProblem>)
      ensures r.Ok? <==>
                && Compatible(eq.InputDimension(), f.InputDimension())
                && Compatible(ineq.InputDimension(), f.InputDimension())
                && Compatible(b.Dimension(), f.InputDimension())
      ensures r.Err? ==> r.error == InvalidArgument
      ensures r.Ok? ==>
                && fresh(r.value) && r.value.Valid()
                && r.value.State() == ProblemState(f, eq, ineq, b, Default, 0.0, true, f.InputDimension())
    {
      var p := new OptimizationProblem.FromObjective(f);
      var o := p.SetEqualityConstraint(eq);
      if o.Fail? { return Err(o.error); }
      o := p.SetInequalityConstraint(ineq);
      if o.Fail? { return Err(o.error); }
      o := p.SetBounds(b);
      if o.Fail? { return Err(o.error); }
      return Ok(p);
    }

    /** Nearest-point constructor: stores the level value, then sets the
        level function (which throws unless its output dimension is 1). */
    static method NearestPoint(g: Function, value: real)
      returns (r: Result<OptimizationProblem>)
      ensures r.Ok? <==> g.OutputDimension() == 1
      ensures r.Err? ==> r.error == InvalidArgument
      ensures r.Ok? ==>
                && fresh(r.value) && r.value.Valid() && r.value.HasLevelFunction()
                && r.value.State() ==
                     ProblemState(NearestPointObjective(g.InputDimension()),
                                  LevelConstraint(g, value), Default, EmptyInterval,
                                  g, value, true, g.InputDimension())
    {
      var p := new OptimizationProblem();
      p.levelValue := value;
      var o := p.SetLevelFunction(g);
      if o.Fail? { return Err(o.error); }
      return Ok(p);
    }

    /** setObjective: when the input dimension changes, both constraints
        are reset and the bounds become of dimension 0; in every case the
        level function is cleared and the dimension follows the objective. */
    method SetObjective(f: Function)
      requires Valid()
      modifies this
      ensures Valid()
      ensures var changed := f.InputDimension() != old(objective.InputDimension());
              State() == ProblemState(
                f,
                if changed then Default else old(equalityConstraint),
                if changed then Default else old(inequalityConstraint),
                if changed then EmptyInterval else old(bounds),
                Default, 0.0, old(minimization), f.InputDimension())
    {
      if f.InputDimension() != objective.InputDimension() {
        equalityConstraint := Default;
        inequalityConstraint := Default;
        bounds := EmptyInterval;
      }
      ClearLevelFunction();
      objective := f;
      dimension := f.InputDimension();
    }

    /** setEqualityConstraint: accepts a constraint of input dimension 0
        or equal to the problem's; on success clears the level function,
        then stores the constraint.  On failure nothing changes. */
    method SetEqualityConstraint(c: Function) returns (o: Outcome)
      requires Valid()
      modifies this
      ensures Valid()
      ensures o.Pass? <==> Compatible(c.InputDimension(), old(dimension))
      ensures o.Fail? ==> o.error == InvalidArgument && State() == old(State())
      ensures o.Pass? ==> State() == old(State()).(equalityConstraint := c,
                                                   levelFunction := Default, levelValue := 0.0)
    {
      if c.InputDimension() > 0 && c.InputDimension() != dimension {
        return Fail(InvalidArgument);
      }
      ClearLevelFunction();
      equalityConstraint := c;
      return Pass;
    }

    /** setInequalityConstraint: the same checks and effects as
        setEqualityConstraint, on the inequality constraint. */
    method SetInequalityConstraint(c: Function) returns (o: Outcome)
      requires Valid()
      modifies this
      ensures Valid()
      ensures o.Pass? <==> Compatible(c.InputDimension(), old(dimension))
      ensures o.Fail? ==> o.error == InvalidArgument && State() == old(State())
      ensures o.Pass? ==> State() == old(State()).(inequalityConstraint := c,
                                                   levelFunction := Default, levelValue := 0.0)
    {
      if c.InputDimension() > 0 && c.InputDimension() != dimension {
        return Fail(InvalidArgument);
      }
      ClearLevelFunction();
      inequalityConstraint := c;
      return Pass;
    }

    /** setBounds: accepts bounds of dimension 0 or equal to the problem's
        dimension, and otherwise leaves the problem unchanged. */
    method SetBounds(b: Interval) returns (o: Outcome)
      requires Valid()
      modifies this
      ensures Valid()
      ensures o.Pass? <==> Compatible(b.Dimension(), old(dimension))
      ensures o.Fail? ==> o.error == InvalidArgument && State() == old(State())
      ensures o.Pass? ==> State() == old(State()).(bounds := b)
      ensures o.Pass? ==> (HasBounds() <==> b.Dimension() > 0)
    {
      if b.Dimension() > 0 && b.Dimension() != dimension {
        return Fail(InvalidArgument);
      }
      bounds := b;
      return Pass;
    }

    /** setLevelFunction: throws unless the output dimension is 1; on
        success keeps the level function, takes its input dimension, makes
        the objective the nearest-point quadratic and rebuilds the
        nearest-point constraints.  The bounds and level value are kept. */
    method SetLevelFunction(g: Function) returns (o: Outcome)
      requires Valid()
      modifies this
      ensures Valid()
      ensures o.Pass? <==> g.OutputDimension() == 1
      ensures o.Fail? ==> o.error == InvalidArgument && State() == old(State())
      ensures o.Pass? ==>
                && HasLevelFunction()
                && State() == old(State()).(
                     objective := NearestPointObjective(g.InputDimension()),
                     equalityConstraint := LevelConstraint(g, old(levelValue)),
                     inequalityConstraint := Default,
                     levelFunction := g,
                     dimension := g.InputDimension())
    {
      if g.OutputDimension() != 1 {
        return Fail(InvalidArgument);
      }
      levelFunction := g;
      dimension := g.InputDimension();
      objective := NearestPointObjective(dimension);
      SetNearestPointConstraints();
      return Pass;
    }

    /** setLevelValue: always stores the value; the nearest-point
        constraints are rebuilt only when a level function is set. */
    method SetLevelValue(value: real)
      requires Valid()
      modifies this
      ensures Valid()
      ensures old(HasLevelFunction()) ==>
                State() == old(State()).(levelValue := value,
                                         equalityConstraint := LevelConstraint(old(levelFunction), value),
                                         inequalityConstraint := Default)
      ensures !old(HasLevelFunction()) ==> State() == old(State()).(levelValue := value)
    {
      levelValue := value;
      if HasLevelFunction() {
        SetNearestPointConstraints();
      }
    }

    /** The equality constraint becomes levelFunction - levelValue and the
        inequality constraint is reset. */
    method SetNearestPointConstraints()
      modifies this
      ensures State() == old(State()).(equalityConstraint := LevelConstraint(old(levelFunction), old(levelValue)),
                                       inequalityConstraint := Default)
    {
      equalityConstraint := LevelConstraint(levelFunction, levelValue);
      inequalityConstraint := Default;
    }

    method ClearLevelFunction()
      modifies this
      ensures State() == old(State()).(levelFunction := Default, levelValue := 0.0)
      ensures !HasLevelFunction()
    {
      levelFunction := Default;
      levelValue := 0.0;
    }

    /** setMinimization: only the flag changes. */
    method SetMinimization(b: bool)
      modifies this
      ensures State() == old(State()).(minimization := b)
      ensures IsMinimization() == b
    {
      minimization := b;
    }

    predicate IsMinimization() reads this { minimization }
  }
}
