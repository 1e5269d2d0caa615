/**
 * The numpy operations the core uses, over exact reals: vectors are sequences,
 * a matrix is the sequence of its rows.
 */
module Vectors {

  type Vector = seq<real>
  type Matrix = seq<seq<real>>

  /** `m` has `rows` rows of `cols` entries each. */
  predicate IsMatrix(m: Matrix, rows: nat, cols: nat) {
    |m| == rows && forall k :: 0 <= k < |m| ==> |m[k]| == cols
  }

  function Zero(n: nat): (r: Vector)
    ensures |r| == n
  {
    if n == 0 then [] else [0.0] + Zero(n - 1)
  }

  function Sum(v: Vector): real {
    if |v| == 0 then 0.0 else v[0] + Sum(v[1..])
  }

  function Dot(u: Vector, v: Vector): real
    requires |u| == |v|
  {
    if |u| == 0 then 0.0 else u[0] * v[0] + Dot(u[1..], v[1..])
  }

  // Scale, Add and Sub recurse on the front of their arguments, like Sum and
  // Dot; their elements are given by ScaleAt, AddAt and SubAt below.

  function Scale(k: real, v: Vector): (r: Vector)
    ensures |r| == |v|
  {
    if |v| == 0 then [] else [k * v[0]] + Scale(k, v[1..])
  }

  function Add(u: Vector, v: Vector): (r: Vector)
    requires |u| == |v|
    ensures |r| == |u|
  {
    if |u| == 0 then [] else [u[0] + v[0]] + Add(u[1..], v[1..])
  }

  function Sub(u: Vector, v: Vector): (r: Vector)
    requires |u| == |v|
    ensures |r| == |u|
  {
    if |u| == 0 then [] else [u[0] - v[0]] + Sub(u[1..], v[1..])
  }

  /** Column `j` of `m`. */
  function Column(m: Matrix, j: nat): (r: Vector)
    requires forall k :: 0 <= k < |m| ==> j < |m[k]|
    ensures |r| == |m|
  {
    seq(|m|, k requires 0 <= k < |m| => m[k][j])
  }

  /** `m @ v`: one dot product per row. */
  function MatVec(m: Matrix, v: Vector): (r: Vector)
    requires forall k :: 0 <= k < |m| ==> |m[k]| == |v|
    ensures |r| == |m|
  {
    seq(|m|, k requires 0 <= k < |m| => Dot(m[k], v))
  }

  /** `u @ m` for a matrix of `cols` columns: one dot product per column. */
  function VecMat(u: Vector, m: Matrix, cols: nat): (r: Vector)
    requires IsMatrix(m, |u|, cols)
    ensures |r| == cols
  {
    seq(cols, j requires 0 <= j < cols => Dot(u, Column(m, j)))
  }

  /** The vector of length `n` that is `x` at index `i` and zero elsewhere. */
  function Spike(n: nat, i: nat, x: real): (r: Vector)
    ensures |r| == n
  {
    seq(n, j => if j == i then x else 0.0)
  }

  /** `np.diag(c)`. */
  function Diag(c: Vector): (r: Matrix)
    ensures IsMatrix(r, |c|, |c|)
  {
    seq(|c|, i requires 0 <= i < |c| => Spike(|c|, i, c[i]))
  }

  /** The outer product `u vᵀ`. */
  function Outer(u: Vector, v: Vector): (r: Matrix)
    ensures IsMatrix(r, |u|, |v|)
  {
    seq(|u|, i requires 0 <= i < |u| => Scale(u[i], v))
  }

  function MatSub(a: Matrix, b: Matrix, rows: nat, cols: nat): (r: Matrix)
    requires IsMatrix(a, rows, cols) && IsMatrix(b, rows, cols)
    ensures IsMatrix(r, rows, cols)
  {
    seq(rows, i requires 0 <= i < rows => Sub(a[i], b[i]))
  }

  /** `diag(c) - c cᵀ`, the Jacobian of the softmax at a point whose image is `c`. */
  function DiagMinusOuter(c: Vector): (r: Matrix)
    ensures IsMatrix(r, |c|, |c|)
  {
    MatSub(Diag(c), Outer(c, c), |c|, |c|)
  }

  // ---------------------------------------------------------------------------
  // Elements of the recursively defined operations.

  lemma {:induction false} ZeroAt(n: nat, i: nat)
    requires i < n
    ensures Zero(n)[i] == 0.0
  {
    if i > 0 {
      ZeroAt(n - 1, i - 1);
    }
  }

  lemma {:induction false} ScaleAt(k: real, v: Vector, i: nat)
    requires i < |v|
    ensures Scale(k, v)[i] == k * v[i]
  {
    if i > 0 {
      ScaleAt(k, v[1..], i - 1);
    }
  }

  lemma {:induction false} AddAt(u: Vector, v: Vector, i: nat)
    requires |u| == |v| && i < |u|
    ensures Add(u, v)[i] == u[i] + v[i]
  {
    if i > 0 {
      AddAt(u[1..], v[1..], i - 1);
    }
  }

  lemma {:induction false} SubAt(u: Vector, v: Vector, i: nat)
    requires |u| == |v| && i < |u|
    ensures Sub(u, v)[i] == u[i] - v[i]
  {
    if i > 0 {
      SubAt(u[1..], v[1..], i - 1);
    }
  }

  // ---------------------------------------------------------------------------
  // Facts about sums and dot products used by the core's proofs.

  lemma {:induction false} SumZero(n: nat)
    ensures Sum(Zero(n)) == 0.0
  {
    if n > 0 {
      assert Zero(n)[1..] == Zero(n - 1);
      SumZero(n - 1);
    }
  }

  lemma {:induction false} SumScale(k: real, v: Vector)
    ensures Sum(Scale(k, v)) == k * Sum(v)
  {
    if |v| > 0 {
      assert Scale(k, v)[1..] == Scale(k, v[1..]);
      SumScale(k, v[1..]);
    }
  }

  lemma {:induction false} SumAdd(u: Vector, v: Vector)
    requires |u| == |v|
    ensures Sum(Add(u, v)) == Sum(u) + Sum(v)
  {
    if |u| > 0 {
      assert Add(u, v)[1..] == Add(u[1..], v[1..]);
      SumAdd(u[1..], v[1..]);
    }
  }

  lemma {:induction false} SumSub(u: Vector, v: Vector)
    requires |u| == |v|
    ensures Sum(Sub(u, v)) == Sum(u) - Sum(v)
  {
    if |u| > 0 {
      assert Sub(u, v)[1..] == Sub(u[1..], v[1..]);
      SumSub(u[1..], v[1..]);
    }
  }

  lemma {:induction false} SumSpike(n: nat, i: nat, x: real)
    requires i < n
    ensures Sum(Spike(n, i, x)) == x
  {
    if i == 0 {
      forall j | 0 <= j < n - 1
        ensures Spike(n, i, x)[1..][j] == Zero(n - 1)[j]
      {
        ZeroAt(n - 1, j);
      }
      assert Spike(n, i, x)[1..] == Zero(n - 1);
      SumZero(n - 1);
    } else {
      assert Spike(n, i, x)[1..] == Spike(n - 1, i - 1, x);
      SumSpike(n - 1, i - 1, x);
    }
  }

  lemma {:induction false} SumPositive(v: Vector)
    requires |v| > 0
    requires forall i :: 0 <= i < |v| ==> v[i] > 0.0
    ensures Sum(v) > 0.0
  {
    if |v| > 1 {
      SumPositive(v[1..]);
    }
  }

  lemma {:induction false} ElementAtMostSum(v: Vector, i: nat)
    requires i < |v|
    requires forall j :: 0 <= j < |v| ==> v[j] >= 0.0
    ensures v[i] <= Sum(v)
  {
    if i == 0 {
      SumNonNegative(v[1..]);
    } else {
      ElementAtMostSum(v[1..], i - 1);
    }
  }

  lemma {:induction false} SumNonNegative(v: Vector)
    requires forall j :: 0 <= j < |v| ==> v[j] >= 0.0
    ensures Sum(v) >= 0.0
  {
    if |v| > 0 {
      SumNonNegative(v[1..]);
    }
  }

  lemma {:induction false} DotSelf(v: Vector)
    ensures Dot(v, v) >= 0.0
    ensures Dot(v, v) == 0.0 <==> v == Zero(|v|)
  {
    if |v| > 0 {
      DotSelf(v[1..]);
      SquareNonNegative(v[0]);
      if v == Zero(|v|) {
        assert v[1..] == Zero(|v| - 1);
      }
      if Dot(v, v) == 0.0 {
        assert v[1..] == Zero(|v| - 1);
        assert v == [v[0]] + v[1..];
      }
    }
  }

  lemma SquareNonNegative(x: real)
    ensures x * x >= 0.0
    ensures x * x == 0.0 ==> x == 0.0
  {
    if x < 0.0 {
      assert x * x == (-x) * (-x);
    }
    if x != 0.0 {
      assert x * x / x == x;
    }
  }

  lemma AddZero(v: Vector)
    ensures Add(v, Zero(|v|)) == v
  {
    forall i | 0 <= i < |v|
      ensures Add(v, Zero(|v|))[i] == v[i]
    {
      AddAt(v, Zero(|v|), i);
      ZeroAt(|v|, i);
    }
  }

  lemma ZeroAdd(v: Vector)
    ensures Add(Zero(|v|), v) == v
  {
    forall i | 0 <= i < |v|
      ensures Add(Zero(|v|), v)[i] == v[i]
    {
      AddAt(Zero(|v|), v, i);
      ZeroAt(|v|, i);
    }
  }

  lemma ScaleZero(v: Vector)
    ensures Scale(0.0, v) == Zero(|v|)
  {
    forall i | 0 <= i < |v|
      ensures Scale(0.0, v)[i] == Zero(|v|)[i]
    {
      ScaleAt(0.0, v, i);
      ZeroAt(|v|, i);
    }
  }

  lemma ScaleScale(a: real, b: real, ab: real, v: Vector)
    requires ab == b * a
    ensures Scale(a, Scale(b, v)) == Scale(ab, v)
  {
    forall i | 0 <= i < |v|
      ensures Scale(a, Scale(b, v))[i] == Scale(ab, v)[i]
    {
      ScaleAt(a, Scale(b, v), i);
      ScaleAt(b, v, i);
      ScaleAt(ab, v, i);
      assert a * (b * v[i]) == (b * a) * v[i];
    }
  }

  lemma {:induction false} DotAdd(n: Vector, p: Vector, q: Vector)
    requires |n| == |p| == |q|
    ensures Dot(n, Add(p, q)) == Dot(n, p) + Dot(n, q)
  {
    if |n| > 0 {
      assert Add(p, q)[1..] == Add(p[1..], q[1..]);
      DotAdd(n[1..], p[1..], q[1..]);
    }
  }

  /** Negating a vector that sums to zero leaves one that sums to zero. */
  lemma SumNegatedZero(v: Vector)
    requires Sum(v) == 0.0
    ensures Sum(Scale(-1.0, v)) == 0.0
  {
    SumScale(-1.0, v);
  }

  /** A dot product with non-negative weights lies between the weighted bounds. */
  lemma {:induction false} DotBounds(w: Vector, v: Vector, lo: real, hi: real)
    requires |w| == |v|
    requires forall i :: 0 <= i < |w| ==> w[i] >= 0.0
    requires forall i :: 0 <= i < |v| ==> lo <= v[i] <= hi
    ensures lo * Sum(w) <= Dot(w, v) <= hi * Sum(w)
  {
    if |w| > 0 {
      DotBounds(w[1..], v[1..], lo, hi);
      BoundStep(lo, hi, w[0], v[0], Sum(w[1..]), Dot(w[1..], v[1..]));
    }
  }

  /** Weights that are non-negative and sum to one average `v` to a value within its bounds. */
  lemma WeightedAverageBounds(w: Vector, v: Vector, lo: real, hi: real)
    requires |w| == |v| && Sum(w) == 1.0
    requires forall i :: 0 <= i < |w| ==> w[i] >= 0.0
    requires forall i :: 0 <= i < |v| ==> lo <= v[i] <= hi
    ensures lo <= Dot(w, v) <= hi
  {
    DotBounds(w, v, lo, hi);
    UnitFactor(lo, hi, Sum(w), Dot(w, v));
  }

  lemma UnitFactor(lo: real, hi: real, s: real, d: real)
    requires s == 1.0 && lo * s <= d <= hi * s
    ensures lo <= d <= hi
  {
  }

  /** One step of DotBounds, on scalars only. */
  lemma BoundStep(lo: real, hi: real, x: real, y: real, s: real, d: real)
    requires x >= 0.0 && lo <= y <= hi
    requires lo * s <= d <= hi * s
    ensures lo * (x + s) <= x * y + d <= hi * (x + s)
  {
    MulMonotone(x, lo, y);
    MulMonotone(x, y, hi);
  }

  lemma MulMonotone(k: real, a: real, b: real)
    requires k >= 0.0 && a <= b
    ensures k * a <= k * b
  {
    assert k * b - k * a == k * (b - a);
  }

  /** When every row of `m` sums to zero, so does `u @ m`. */
  lemma {:induction false} SumVecMatZeroRows(u: Vector, m: Matrix, cols: nat)
    requires IsMatrix(m, |u|, cols)
    requires forall i :: 0 <= i < |m| ==> Sum(m[i]) == 0.0
    ensures Sum(VecMat(u, m, cols)) == 0.0
  {
    if |u| == 0 {
      forall j | 0 <= j < cols
        ensures VecMat(u, m, cols)[j] == Zero(cols)[j]
      {
        ZeroAt(cols, j);
      }
      assert VecMat(u, m, cols) == Zero(cols);
      SumZero(cols);
    } else {
      var rest := VecMat(u[1..], m[1..], cols);
      forall j | 0 <= j < cols
        ensures VecMat(u, m, cols)[j] == Add(Scale(u[0], m[0]), rest)[j]
      {
        assert Column(m, j)[1..] == Column(m[1..], j);
        AddAt(Scale(u[0], m[0]), rest, j);
        ScaleAt(u[0], m[0], j);
      }
      assert VecMat(u, m, cols) == Add(Scale(u[0], m[0]), rest);
      SumAdd(Scale(u[0], m[0]), rest);
      SumScale(u[0], m[0]);
      SumVecMatZeroRows(u[1..], m[1..], cols);
    }
  }

  lemma {:induction false} DotComm(u: Vector, v: Vector)
    requires |u| == |v|
    ensures Dot(u, v) == Dot(v, u)
  {
    if |u| > 0 {
      DotComm(u[1..], v[1..]);
    }
  }

  /** A difference is the zero vector exactly when its operands are equal. */
  lemma SubZeroIff(u: Vector, v: Vector)
    requires |u| == |v|
    ensures Sub(u, v) == Zero(|u|) <==> u == v
  {
    if Sub(u, v) == Zero(|u|) {
      forall i | 0 <= i < |u|
        ensures u[i] == v[i]
      {
        SubAt(u, v, i);
        ZeroAt(|u|, i);
      }
    }
    if u == v {
      forall i | 0 <= i < |u|
        ensures Sub(u, v)[i] == Zero(|u|)[i]
      {
        SubAt(u, v, i);
        ZeroAt(|u|, i);
      }
    }
  }

  /** Entry (i, j) of `diag(c) - c cᵀ` is `c_i - c_i c_i` on the diagonal and `-c_i c_j` off it. */
  lemma DiagMinusOuterEntry(c: Vector, i: nat, j: nat)
    requires i < |c| && j < |c|
    ensures DiagMinusOuter(c)[i][j] == (if i == j then c[i] else 0.0) - c[i] * c[j]
  {
    var n := |c|;
    assert DiagMinusOuter(c)[i] == Sub(Diag(c)[i], Outer(c, c)[i]);
    assert Diag(c)[i] == Spike(n, i, c[i]);
    assert Outer(c, c)[i] == Scale(c[i], c);
    SubAt(Spike(n, i, c[i]), Scale(c[i], c), j);
    ScaleAt(c[i], c, j);
  }

  /** `diag(c) - c cᵀ` is symmetric. */
  lemma DiagMinusOuterSymmetric(c: Vector, i: nat, j: nat)
    requires i < |c| && j < |c|
    ensures DiagMinusOuter(c)[i][j] == DiagMinusOuter(c)[j][i]
  {
    DiagMinusOuterEntry(c, i, j);
    DiagMinusOuterEntry(c, j, i);
    assert c[i] * c[j] == c[j] * c[i];
  }

  /** When `c` sums to one, every row of `diag(c) - c cᵀ` sums to zero. */
  lemma DiagMinusOuterRowSum(c: Vector, i: nat)
    requires i < |c| && Sum(c) == 1.0
    ensures Sum(DiagMinusOuter(c)[i]) == 0.0
  {
    var n := |c|;
    assert DiagMinusOuter(c)[i] == Sub(Diag(c)[i], Outer(c, c)[i]);
    assert Diag(c)[i] == Spike(n, i, c[i]);
    assert Outer(c, c)[i] == Scale(c[i], c);
    SumSub(Spike(n, i, c[i]), Scale(c[i], c));
    SumSpike(n, i, c[i]);
    SumScaleUnit(c[i], c);
  }

  /** Scaling a vector that sums to one gives one that sums to the factor. */
  lemma SumScaleUnit(k: real, v: Vector)
    requires Sum(v) == 1.0
    ensures Sum(Scale(k, v)) == k
  {
    SumScale(k, v);
  }
}
