/**
 * Convex hulls, linear constraints and polytopes (src/eukleides/convex.py).
 */
module Convex {
  import opened Vectors
  import opened Results
  import opened Geometry

  // ---------------------------------------------------------------------------
  // Convex hull

  /** Every point has the shape of the first one (vacuously true of no points). */
  predicate SameShape(points: seq<Vector>) {
    forall i :: 0 <= i < |points| ==> |points[i]| == |points[0]|
  }

  /** `np.array(points).T`: the d x n matrix whose column i is points[i]. */
  function Stack(points: seq<Vector>): (base: Matrix)
    requires SameShape(points)
    ensures |points| > 0 ==> IsMatrix(base, |points[0]|, |points|)
    ensures |points| == 0 ==> base == []
    ensures forall i :: 0 <= i < |points| ==> Column(base, i) == points[i]
  {
    if |points| == 0 then []
    else
      seq(|points[0]|, k requires 0 <= k < |points[0]| =>
        seq(|points|, i requires 0 <= i < |points| => points[i][k]))
  }

  /** A finite ordered set of points of one dimension, with its lazily stacked matrix. */
  class ConvexHull {
    /** The points; their order indexes the coefficients of a combination. */
    const points: seq<Vector>
    /** The matrix `base`, computed on first access. */
    var cache: Option<Matrix>

    ghost predicate Valid()
      reads this
    {
      SameShape(points) && (cache.Some? ==> cache.value == Stack(points))
    }

    constructor (points: seq<Vector>)
      requires SameShape(points)
      ensures Valid() && this.points == points && cache == None
    {
      this.points := points;
      cache := None;
    }

    /** `num_points`: the number of points, which is the number of columns of `base`. */
    function NumPoints(): (n: nat)
      ensures SameShape(points) && |points| > 0 ==> IsMatrix(Stack(points), |points[0]|, n)
    {
      |points|
    }

    /**
     * The `base` property: stacks the points on the first read and returns the
     * cached matrix on every later one, without recomputing it.
     */
    method Base() returns (base: Matrix)
      requires Valid()
      modifies this
      ensures Valid() && cache == Some(base)
      ensures base == Stack(points)
      ensures |points| > 0 ==> IsMatrix(base, |points[0]|, NumPoints())
      ensures old(cache).Some? ==> cache == old(cache)
    {
      if cache.None? {
        cache := Some(Stack(points));
      }
      base := cache.value;
    }
  }

  /** Construction: the shape assertion fails unless all points share one shape. */
  method NewConvexHull(points: seq<Vector>) returns (r: Result<ConvexHull>)
    ensures r.Ok? <==> SameShape(points)
    ensures r.Err? ==> r.error == DimensionMismatch
    ensures r.Ok? ==> fresh(r.value) && r.value.Valid() && r.value.points == points && r.value.cache == None
  {
    if SameShape(points) {
      var h := new ConvexHull(points);
      r := Ok(h);
    } else {
      r := Err(DimensionMismatch);
    }
  }

  /** Two reads of `base` on an unmodified hull give the same matrix. */
  method ReadBaseTwice(h: ConvexHull) returns (first: Matrix, second: Matrix)
    requires h.Valid()
    modifies h
    ensures first == second && h.cache == Some(first)
  {
    first := h.Base();
    second := h.Base();
  }

  // ---------------------------------------------------------------------------
  // Linear constraints

  /** Which relation to the plane a constraint demands. */
  datatype Side = Eq | Leq | Geq

  /** A hyperplane together with a side; the plane's `contains` is inherited. */
  datatype LinearConstraint = LinearConstraint(plane: HyperPlane, side: Side)

  /** Construction: the assertion rejects every side but "eq", "leq" and "geq". */
  function NewLinearConstraint(normal: Vector, constant: real, side: string): (r: Result<LinearConstraint>)
    ensures r.Ok? <==> side in {"eq", "leq", "geq"}
    ensures r.Err? ==> r.error == InvalidSide
    ensures r.Ok? ==> r.value.plane == HyperPlane(normal, constant)
    ensures r.Ok? ==> (r.value.side == Eq <==> side == "eq") && (r.value.side == Leq <==> side == "leq")
  {
    if side == "eq" then Ok(LinearConstraint(HyperPlane(normal, constant), Eq))
    else if side == "leq" then Ok(LinearConstraint(HyperPlane(normal, constant), Leq))
    else if side == "geq" then Ok(LinearConstraint(HyperPlane(normal, constant), Geq))
    else Err(InvalidSide)
  }

  /**
   * Whether a point satisfies the constraint: membership of the plane for Eq,
   * the closed half-space widened by Tol for Leq and Geq. A point of another
   * dimension is an error on every side.
   */
  function Check(c: LinearConstraint, point: Vector): (r: Result<bool>)
    ensures r.Ok? <==> |point| == Dim(c.plane)
    // `contains` asserts the shapes; numpy's dot product refuses them
    ensures r.Err? ==> r.error == (if c.side == Eq then DimensionMismatch else ShapesNotAligned)
    ensures r.Ok? && c.side == Eq ==>
      (r.value <==> c.plane.constant - Tol < Dot(c.plane.normal, point) < c.plane.constant + Tol)
    ensures r.Ok? && c.side == Leq ==> (r.value <==> Dot(c.plane.normal, point) <= c.plane.constant + Tol)
    ensures r.Ok? && c.side == Geq ==> (r.value <==> Dot(c.plane.normal, point) >= c.plane.constant - Tol)
  {
    match c.side
    case Eq => Contains(c.plane, point)
    case Leq =>
      if |point| != Dim(c.plane) then Err(ShapesNotAligned)
      else Ok(Dot(c.plane.normal, point) <= c.plane.constant + Tol)
    case Geq =>
      if |point| != Dim(c.plane) then Err(ShapesNotAligned)
      else Ok(Dot(c.plane.normal, point) >= c.plane.constant - Tol)
  }

  /** A point on an equality constraint satisfies both half-spaces of its plane. */
  lemma EqWithinHalfSpaces(h: HyperPlane, point: Vector)
    requires Check(LinearConstraint(h, Eq), point) == Ok(true)
    ensures Check(LinearConstraint(h, Leq), point) == Ok(true)
    ensures Check(LinearConstraint(h, Geq), point) == Ok(true)
  {
  }

  /**
   * The two half-spaces meet in the closed band of width 2 Tol around the plane,
   * while the equality constraint accepts only its open interior.
   */
  lemma HalfSpacesMeetInClosedBand(h: HyperPlane, point: Vector)
    requires |point| == Dim(h)
    ensures Check(LinearConstraint(h, Leq), point) == Ok(true) && Check(LinearConstraint(h, Geq), point) == Ok(true)
        <==> Abs(Dot(h.normal, point) - h.constant) <= Tol
  {
  }

  /** The constraint x + y <= 1 holds at (0.3, 0.7) and fails at (0.5, 9). */
  lemma LinearConstraintExample()
    ensures var c := LinearConstraint(HyperPlane([1.0, 1.0], 1.0), Leq);
      && Contains(c.plane, [0.3, 0.7]) == Ok(true)
      && Contains(c.plane, [0.5, 9.0]) == Ok(false)
      && Check(c, [0.3, 0.7]) == Ok(true)
      && Check(c, [0.5, 9.0]) == Ok(false)
  {
    var n: Vector := [1.0, 1.0];
    var p: Vector := [0.3, 0.7];
    var q: Vector := [0.5, 9.0];
    assert Dot(n[1..], p[1..]) == 0.7;
    assert Dot(n, p) == 1.0;
    assert Dot(n[1..], q[1..]) == 9.0;
    assert Dot(n, q) == 9.5;
  }

  // ---------------------------------------------------------------------------
  // Polytopes

  /** Every constraint's normal has length `dim`. */
  predicate AllOfDim(cs: seq<LinearConstraint>, dim: nat) {
    forall i :: 0 <= i < |cs| ==> Dim(cs[i].plane) == dim
  }

  /**
   * `all(constr.check(point) for constr in cs)`: the constraints are checked in
   * order, the first failing one ends the scan, and an error raised by a check
   * before that propagates.
   */
  function CheckEach(cs: seq<LinearConstraint>, point: Vector): (r: Result<bool>)
    ensures r == Ok(true) <==> forall i :: 0 <= i < |cs| ==> Check(cs[i], point) == Ok(true)
    ensures r.Err? ==> exists i :: 0 <= i < |cs| && Check(cs[i], point).Err?
    ensures AllOfDim(cs, |point|) ==> r.Ok?
    ensures |cs| > 0 && AllOfDim(cs, Dim(cs[0].plane)) && |point| != Dim(cs[0].plane) ==> r.Err?
  {
    if |cs| == 0 then Ok(true)
    else
      match Check(cs[0], point)
      case Err(e) => Err(e)
      case Ok(false) => Ok(false)
      case Ok(true) => CheckEach(cs[1..], point)
  }

  /** The intersection of a non-empty list of constraints of one dimension. */
  class Polytope {
    /** The dimension of the first constraint given at construction. */
    const dim: nat
    /** The constraints, in the order they were given and added. */
    var constraints: seq<LinearConstraint>

    ghost predicate Valid()
      reads this
    {
      |constraints| > 0 && AllOfDim(constraints, dim)
    }

    constructor (cs: seq<LinearConstraint>)
      requires |cs| > 0 && AllOfDim(cs, Dim(cs[0].plane))
      ensures Valid() && dim == Dim(cs[0].plane) && constraints == cs
    {
      dim := Dim(cs[0].plane);
      constraints := cs;
    }

    /**
     * Appends a constraint of the polytope's dimension; the assertion fails
     * (and nothing changes) for any other dimension.
     */
    method AddConstraint(c: LinearConstraint) returns (ok: bool)
      requires Valid()
      modifies this
      ensures Valid()
      ensures ok <==> Dim(c.plane) == dim
      ensures constraints == if ok then old(constraints) + [c] else old(constraints)
    {
      ok := Dim(c.plane) == dim;
      if ok {
        constraints := constraints + [c];
      }
    }

    /**
     * `check_all`: a point of the polytope's dimension gets the conjunction of
     * all constraint checks; a point of another dimension raises.
     */
    function CheckAll(point: Vector): (r: Result<bool>)
      reads this
      requires Valid()
      ensures r.Ok? <==> |point| == dim
      ensures r.Ok? ==> (r.value <==> forall i :: 0 <= i < |constraints| ==> Check(constraints[i], point) == Ok(true))
    {
      CheckEach(constraints, point)
    }
  }

  /**
   * Construction: reading the first constraint fails on an empty list, and the
   * assertion fails unless every normal has the first one's dimension.
   */
  method NewPolytope(cs: seq<LinearConstraint>) returns (r: Result<Polytope>)
    ensures r.Err? <==> |cs| == 0 || !AllOfDim(cs, Dim(cs[0].plane))
    ensures |cs| == 0 ==> r == Err(NoConstraints)
    ensures |cs| > 0 && r.Err? ==> r.error == DimensionMismatch
    ensures r.Ok? ==> fresh(r.value) && r.value.Valid() && r.value.constraints == cs
  {
    if |cs| == 0 {
      r := Err(NoConstraints);
    } else if !AllOfDim(cs, Dim(cs[0].plane)) {
      r := Err(DimensionMismatch);
    } else {
      var p := new Polytope(cs);
      r := Ok(p);
    }
  }
}
