/** Values shared by the optimisation problem and the fitting engine:
    error outcomes, optional values, samples and intervals. */
module Common {

  /** The exception classes the modelled code throws. */
  datatype Error =
    | InvalidArgument    // InvalidArgumentException
    | InvalidDimension   // InvalidDimensionException

  /** The outcome of a setter that either succeeds or throws. */
  datatype Outcome = Pass | Fail(error: Error)

  /** The outcome of an operation that either returns a value or throws. */
  datatype Result<+T> = Ok(value: T) | Err(error: Error)

  datatype Option<+T> = None | Some(value: T)

  /** A point of R^n. */
  type Point = seq<real>

  /** A sample: an ordered sequence of points that all have the dimension
      of the sample (a sample of size 0 still has a dimension). */
  datatype Sample = Sample(dimension: nat, points: seq<Point>) {
    function Size(): nat { |points| }

    ghost predicate WellFormed() {
      forall i :: 0 <= i < |points| ==> |points[i]| == dimension
    }
  }

  /** An interval of R^n given by its lower and upper corners; its
      dimension is the number of components of the lower corner. */
  datatype Interval = Interval(lowerBound: Point, upperBound: Point) {
    function Dimension(): nat { |lowerBound| }
  }

  /** The interval of dimension 0 (the default-constructed interval). */
  const EmptyInterval: Interval := Interval([], [])

  /** The point of dimension n whose components all equal v. */
  function Constant(n: nat, v: real): (p: Point)
    ensures |p| == n
    ensures forall i :: 0 <= i < n ==> p[i] == v
  {
    seq(n, _ => v)
  }

  /** s without its element at position i (std::vector::erase). */
  function Erase<T>(s: seq<T>, i: nat): (r: seq<T>)
    requires i < |s|
    ensures |r| == |s| - 1
    ensures forall j :: 0 <= j < i ==> r[j] == s[j]
    ensures forall j :: i <= j < |r| ==> r[j] == s[j + 1]
  {
    s[..i] + s[i + 1..]
  }
}
