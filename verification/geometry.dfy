/**
 * Hyperplanes of Euclidean space (src/eukleides/geometry.py).
 *
 * Membership subtracts the constant: a point x is on the plane when
 * normal . x is within the tolerance of `constant`.
 */
module Geometry {
  import opened Vectors
  import opened Results

  /** The tolerance shared by every hyperplane, 1e-8. */
  const Tol: real := 0.00000001

  /** A hyperplane given by its normal vector and its constant. */
  datatype HyperPlane = HyperPlane(normal: Vector, constant: real)

  /** The dimension of a plane: the length of its normal. */
  function Dim(h: HyperPlane): (d: nat)
    ensures d == |h.normal|
  {
    |h.normal|
  }

  function Abs(x: real): real {
    if x < 0.0 then -x else x
  }

  /**
   * Membership test: the assertion on dimensions fails for a point of another
   * length; otherwise the point belongs to the plane iff normal . point lies
   * strictly within Tol of the constant.
   */
  function Contains(h: HyperPlane, point: Vector): (r: Result<bool>)
    ensures r.Err? <==> |point| != Dim(h)
    ensures r.Err? ==> r.error == DimensionMismatch
    ensures r.Ok? ==> (r.value <==> h.constant - Tol < Dot(h.normal, point) < h.constant + Tol)
  {
    if Dim(h) != |point| then Err(DimensionMismatch)
    else Ok(Abs(Dot(h.normal, point) - h.constant) < Tol)
  }

  /** Every point that satisfies the plane's equation exactly belongs to it. */
  lemma OnPlaneIsContained(h: HyperPlane, point: Vector)
    requires |point| == Dim(h) && Dot(h.normal, point) == h.constant
    ensures Contains(h, point) == Ok(true)
  {
  }

  /**
   * Membership depends only on the component of the point along the normal:
   * moving a point by any vector orthogonal to the normal keeps the answer.
   */
  lemma ContainsIgnoresOrthogonalShift(h: HyperPlane, point: Vector, shift: Vector)
    requires |point| == |shift| == Dim(h)
    requires Dot(h.normal, shift) == 0.0
    ensures Contains(h, Add(point, shift)) == Contains(h, point)
  {
    DotAdd(h.normal, point, shift);
  }

  /** The plane x = 0.5 of R^3 contains the point (0.5, 9, 1). */
  lemma HorizontalPlaneExample()
    ensures Contains(HyperPlane([1.0, 0.0, 0.0], 0.5), [0.5, 9.0, 1.0]) == Ok(true)
  {
    var n: Vector := [1.0, 0.0, 0.0];
    var p: Vector := [0.5, 9.0, 1.0];
    assert Dot(n[2..], p[2..]) == 0.0;
    assert Dot(n[1..], p[1..]) == 0.0;
    assert Dot(n, p) == 0.5;
  }
}
