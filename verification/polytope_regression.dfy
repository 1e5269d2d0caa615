/**
 * Polytope regression (src/eukleides/polytope_regression.py): look for
 * coefficients whose softmax weights the vertices of a convex hull so that
 * their combination is a given target point, by following the negative
 * gradient of the squared error with one of the integrators of
 * GradientUpdates. A pass whose loss exceeds the last recorded loss discards
 * the update it has just applied and shrinks the step size; the coefficients
 * that raised the loss are kept.
 *
 * Matrices follow the source's layout: `base` is the d x n matrix whose
 * column j is vertex j, so `base @ c` is the combination with weights c.
 */
module PolytopeRegression {
  import opened Vectors
  import opened Results
  import opened Convex
  import opened GradientUpdates

  /** `np.exp`, of which the model only uses that it is positive. */
  type PositiveFn = f: real -> real | forall x :: f(x) > 0.0 witness (x: real) => 1.0

  // ---------------------------------------------------------------------------
  // Loss algebra

  /** `np.exp(x)`, element by element. */
  function Exps(exp: PositiveFn, x: Vector): (e: Vector)
    ensures |e| == |x|
    ensures forall i :: 0 <= i < |x| ==> e[i] == exp(x[i])
  {
    seq(|x|, i requires 0 <= i < |x| => exp(x[i]))
  }

  /**
   * `softmax`: the exponentials divided by their sum. Dividing each entry by
   * the sum is scaling by its reciprocal; an empty input gives an empty result.
   */
  function Softmax(exp: PositiveFn, x: Vector): (c: Vector)
    ensures |c| == |x|
    // each entry is its exponential divided by the sum of all of them
    ensures |x| > 0 ==> Sum(Exps(exp, x)) > 0.0
    ensures forall i :: 0 <= i < |x| ==> c[i] == exp(x[i]) / Sum(Exps(exp, x))
  {
    var e := Exps(exp, x);
    if |x| == 0 then []
    else
      SumPositive(e);
      NormalizedEntries(e);
      Scale(1.0 / Sum(e), e)
  }

  /** Scaling by the reciprocal of the sum divides each entry by the sum. */
  lemma NormalizedEntries(e: Vector)
    requires Sum(e) > 0.0
    ensures forall i :: 0 <= i < |e| ==> Scale(1.0 / Sum(e), e)[i] == e[i] / Sum(e)
  {
    forall i | 0 <= i < |e|
      ensures Scale(1.0 / Sum(e), e)[i] == e[i] / Sum(e)
    {
      DividedEntry(e, Sum(e), i);
    }
  }

  lemma DividedEntry(e: Vector, t: real, i: nat)
    requires t > 0.0 && i < |e|
    ensures Scale(1.0 / t, e)[i] == e[i] / t
  {
    var k := 1.0 / t;
    ScaleAt(k, e, i);
    ReciprocalTimes(t, k, e[i]);
  }

  lemma ReciprocalTimes(t: real, k: real, x: real)
    requires t > 0.0 && k == 1.0 / t
    ensures k * x == x / t
  {
  }

  /** For a non-empty input the softmax is a probability vector with positive entries. */
  lemma SoftmaxIsDistribution(exp: PositiveFn, x: Vector)
    requires |x| > 0
    ensures forall i :: 0 <= i < |x| ==> 0.0 < Softmax(exp, x)[i] <= 1.0
    ensures Sum(Softmax(exp, x)) == 1.0
  {
    var e := Exps(exp, x);
    SumPositive(e);
    assert Softmax(exp, x) == Scale(1.0 / Sum(e), e);
    NormalizedSum(e);
    forall i | 0 <= i < |x|
      ensures 0.0 < Softmax(exp, x)[i] <= 1.0
    {
      NormalizedEntry(e, i);
    }
  }

  /** Positive entries divided by their sum add up to one. */
  lemma NormalizedSum(e: Vector)
    requires |e| > 0 && forall i :: 0 <= i < |e| ==> e[i] > 0.0
    ensures Sum(e) > 0.0 && Sum(Scale(1.0 / Sum(e), e)) == 1.0
  {
    SumPositive(e);
    var t := Sum(e);
    SumScale(1.0 / t, e);
    ReciprocalPositive(t);
  }

  /** Positive entries divided by their sum lie in (0, 1]. */
  lemma NormalizedEntry(e: Vector, i: nat)
    requires i < |e| && forall j :: 0 <= j < |e| ==> e[j] > 0.0
    ensures Sum(e) > 0.0 && 0.0 < Scale(1.0 / Sum(e), e)[i] <= 1.0
  {
    SumPositive(e);
    ReciprocalPositive(Sum(e));
    ScaledEntry(1.0 / Sum(e), e, i);
  }

  lemma ScaledEntry(k: real, e: Vector, i: nat)
    requires i < |e| && forall j :: 0 <= j < |e| ==> e[j] > 0.0
    requires k > 0.0 && k * Sum(e) == 1.0
    ensures 0.0 < Scale(k, e)[i] <= 1.0
  {
    ElementAtMostSum(e, i);
    FractionBounds(k, e[i], Sum(e));
    ScaleAt(k, e, i);
  }

  lemma ReciprocalPositive(t: real)
    requires t > 0.0
    ensures 1.0 / t > 0.0 && 1.0 / t * t == 1.0
  {
    var k := 1.0 / t;
    assert k * t == 1.0;
    if k <= 0.0 {
      MulMonotone(t, k, 0.0);
    }
  }

  /** With k = 1 / t and 0 < e <= t, 0 < k e <= 1. */
  lemma FractionBounds(k: real, e: real, t: real)
    requires 0.0 < e <= t && k > 0.0 && k * t == 1.0
    ensures 0.0 < k * e <= 1.0
  {
    MulMonotone(k, e, t);
    PositiveProduct(k, e);
  }

  lemma PositiveProduct(a: real, b: real)
    requires a > 0.0 && b > 0.0
    ensures a * b > 0.0
  {
  }

  /** Each vertex has `d` coordinates: `base` has `d` rows of `n` entries. */
  predicate Fits(base: Matrix, coefs: Vector) {
    forall k :: 0 <= k < |base| ==> |base[k]| == |coefs|
  }

  /** `get_convex_combination`: `base @ softmax(coefs)`. */
  function ConvexCombination(base: Matrix, exp: PositiveFn, coefs: Vector): (p: Vector)
    requires Fits(base, coefs)
    ensures |p| == |base|
  {
    MatVec(base, Softmax(exp, coefs))
  }

  /**
   * The combination lies in the hull: each of its coordinates lies between
   * the least and the greatest value of that coordinate over the vertices.
   */
  lemma CombinationWithinBounds(base: Matrix, exp: PositiveFn, coefs: Vector, k: nat, lo: real, hi: real)
    requires Fits(base, coefs) && |coefs| > 0 && k < |base|
    requires forall j :: 0 <= j < |coefs| ==> lo <= base[k][j] <= hi
    ensures lo <= ConvexCombination(base, exp, coefs)[k] <= hi
  {
    var c := Softmax(exp, coefs);
    assert ConvexCombination(base, exp, coefs)[k] == Dot(base[k], c);
    SoftmaxIsDistribution(exp, coefs);
    DotComm(base[k], c);
    WeightedAverageBounds(c, base[k], lo, hi);
  }

  /** `calc_error`: `target - combination`. */
  function CalcError(base: Matrix, target: Vector, exp: PositiveFn, coefs: Vector): (err: Vector)
    requires Fits(base, coefs) && |target| == |base|
    ensures |err| == |target|
    ensures err == Zero(|target|) <==> ConvexCombination(base, exp, coefs) == target
  {
    SubZeroIff(target, ConvexCombination(base, exp, coefs));
    Sub(target, ConvexCombination(base, exp, coefs))
  }

  /** `calc_loss`: the squared length of the error. */
  function CalcLoss(base: Matrix, target: Vector, exp: PositiveFn, coefs: Vector): (l: real)
    requires Fits(base, coefs) && |target| == |base|
    ensures l >= 0.0
  {
    var err := CalcError(base, target, exp, coefs);
    DotSelf(err);
    Dot(err, err)
  }

  /** The loss is never negative, and it is zero exactly when the combination hits the target. */
  lemma LossIsSquaredDistance(base: Matrix, target: Vector, exp: PositiveFn, coefs: Vector)
    requires Fits(base, coefs) && |target| == |base|
    ensures CalcLoss(base, target, exp, coefs) >= 0.0
    ensures CalcLoss(base, target, exp, coefs) == 0.0 <==> ConvexCombination(base, exp, coefs) == target
  {
    var err := CalcError(base, target, exp, coefs);
    DotSelf(err);
    SubZeroIff(target, ConvexCombination(base, exp, coefs));
  }

  /** `comb_gradient`: the Jacobian of the softmax, `diag(c) - c cᵀ` with `c` the softmax of the coefficients. */
  function CombGradient(exp: PositiveFn, coefs: Vector): (j: Matrix)
    ensures IsMatrix(j, |coefs|, |coefs|)
  {
    DiagMinusOuter(Softmax(exp, coefs))
  }

  /** Entry (i, j) of the Jacobian is `c_i - c_i c_i` on the diagonal and `-c_i c_j` off it; so it is symmetric. */
  lemma CombGradientEntries(exp: PositiveFn, coefs: Vector, i: nat, j: nat)
    requires i < |coefs| && j < |coefs|
    ensures CombGradient(exp, coefs)[i][j]
         == (if i == j then Softmax(exp, coefs)[i] else 0.0) - Softmax(exp, coefs)[i] * Softmax(exp, coefs)[j]
    ensures CombGradient(exp, coefs)[i][j] == CombGradient(exp, coefs)[j][i]
  {
    DiagMinusOuterEntry(Softmax(exp, coefs), i, j);
    DiagMinusOuterSymmetric(Softmax(exp, coefs), i, j);
  }

  /** Because the softmax sums to one, every row of its Jacobian sums to zero. */
  lemma CombGradientRowsSumToZero(exp: PositiveFn, coefs: Vector, i: nat)
    requires i < |coefs|
    ensures Sum(CombGradient(exp, coefs)[i]) == 0.0
  {
    SoftmaxIsDistribution(exp, coefs);
    DiagMinusOuterRowSum(Softmax(exp, coefs), i);
  }

  /** `loss_gradient`: `-(error @ base) @ comb_gradient(coefs)`. */
  function LossGradient(base: Matrix, target: Vector, exp: PositiveFn, coefs: Vector): (g: Vector)
    requires IsMatrix(base, |target|, |coefs|)
    ensures |g| == |coefs|
  {
    var n := |coefs|;
    var err := CalcError(base, target, exp, coefs);
    VecMat(Scale(-1.0, VecMat(err, base, n)), CombGradient(exp, coefs), n)
  }

  /**
   * The gradient's entries sum to zero: it never pushes the coefficients
   * along the all-ones direction, the one direction softmax ignores.
   */
  lemma LossGradientSumsToZero(base: Matrix, target: Vector, exp: PositiveFn, coefs: Vector)
    requires IsMatrix(base, |target|, |coefs|)
    ensures Sum(LossGradient(base, target, exp, coefs)) == 0.0
  {
    var n := |coefs|;
    var j := CombGradient(exp, coefs);
    forall i | 0 <= i < |j|
      ensures Sum(j[i]) == 0.0
    {
      CombGradientRowsSumToZero(exp, coefs, i);
    }
    var u := Scale(-1.0, VecMat(CalcError(base, target, exp, coefs), base, n));
    SumVecMatZeroRows(u, j, n);
  }

  /** `inverse_gradient` at one point: minus the loss gradient, which also sums to zero. */
  function DescentDirection(base: Matrix, target: Vector, exp: PositiveFn, coefs: Vector): (d: Vector)
    requires IsMatrix(base, |target|, |coefs|)
    ensures |d| == |coefs| && Sum(d) == 0.0
  {
    var l := LossGradient(base, target, exp, coefs);
    LossGradientSumsToZero(base, target, exp, coefs);
    SumNegatedZero(l);
    Scale(-1.0, l)
  }

  /** `inverse_gradient`, the flow `polyreg` integrates; it sums to zero at every point. */
  function InverseGradient(base: Matrix, target: Vector, exp: PositiveFn, n: nat): (g: Gradient)
    requires IsMatrix(base, |target|, n)
    ensures GradientOn(g, n)
    ensures forall v: Vector {:trigger g(v)} :: |v| == n ==> Sum(g(v)) == 0.0
  {
    (v: Vector) requires |v| == n => DescentDirection(base, target, exp, v)
  }

  // ---------------------------------------------------------------------------
  // The control loop of `polyreg`, over any loss and any update rule

  /** The starting value of `prev_loss`. */
  const Sentinel: real := 100000.0

  /** The factor applied to `alpha` after a step that increased the loss. */
  const Backoff: real := 0.9

  /** The three variables the loop reassigns. */
  datatype RunState = RunState(coefs: Vector, alpha: real, prevLoss: real)

  /** `loss` and `increment` (the update method applied to the flow) accept every vector of length `n`. */
  ghost predicate LoopFunctions(loss: Vector --> real, increment: (Vector, real) --> Vector, n: nat) {
    && (forall v: Vector {:trigger loss.requires(v)} :: |v| == n ==> loss.requires(v))
    && (forall v: Vector, a: real :: |v| == n ==> increment.requires(v, a) && |increment(v, a)| == n)
  }

  /** The outcome of one pass: the new state, whether the loop breaks, whether the pass backed off. */
  datatype Iteration = Iteration(next: RunState, converged: bool, backedOff: bool)

  /** One pass of the loop body. */
  function Step(s: RunState, loss: Vector --> real, increment: (Vector, real) --> Vector, tol: real): (it: Iteration)
    requires LoopFunctions(loss, increment, |s.coefs|)
    ensures |it.next.coefs| == |s.coefs|
    // convergence is decided on the loss before the update ...
    ensures it.converged <==> loss(s.coefs) < tol
    // ... and the loop then returns the updated coefficients, with alpha and prev_loss as they were
    ensures it.converged ==>
              it.next == RunState(Add(s.coefs, increment(s.coefs, s.alpha)), s.alpha, s.prevLoss)
    // an increased loss undoes the update and shrinks the step
    ensures it.backedOff <==> !it.converged && loss(s.coefs) > s.prevLoss
    ensures it.backedOff ==> it.next == RunState(s.coefs, s.alpha * Backoff, s.prevLoss)
    // otherwise the update stays and its loss is recorded
    ensures !it.converged && !it.backedOff ==>
              it.next == RunState(Add(s.coefs, increment(s.coefs, s.alpha)), s.alpha, loss(s.coefs))
    ensures it.next.prevLoss <= s.prevLoss
  {
    var l := loss(s.coefs);
    var moved := Add(s.coefs, increment(s.coefs, s.alpha));
    if l < tol then Iteration(RunState(moved, s.alpha, s.prevLoss), true, false)
    else if l > s.prevLoss then Iteration(RunState(s.coefs, s.alpha * Backoff, s.prevLoss), false, true)
    else Iteration(RunState(moved, s.alpha, l), false, false)
  }

  /**
   * The result of at most `remaining` passes from `s`: the final state, the
   * state the last pass started from, the passes made, how many of them
   * backed off, and whether the loop broke on convergence.
   */
  datatype Outcome = Outcome(final: RunState, last: RunState, iterations: nat, backoffs: nat, converged: bool)

  function Run(s: RunState, loss: Vector --> real, increment: (Vector, real) --> Vector, tol: real, remaining: nat): (o: Outcome)
    requires LoopFunctions(loss, increment, |s.coefs|)
    ensures |o.final.coefs| == |s.coefs| && |o.last.coefs| == |s.coefs|
    ensures o.backoffs <= o.iterations <= remaining
    ensures !o.converged ==> o.iterations == remaining
    ensures o.final.prevLoss <= s.prevLoss
    ensures o.converged ==>
              && o.iterations >= 1
              && loss(o.last.coefs) < tol
              && o.final.coefs == Add(o.last.coefs, increment(o.last.coefs, o.last.alpha))
              && o.final.alpha == o.last.alpha
    decreases remaining
  {
    if remaining == 0 then Outcome(s, s, 0, 0, false)
    else
      var it := Step(s, loss, increment, tol);
      if it.converged then Outcome(it.next, s, 1, 0, true)
      else
        var o := Run(it.next, loss, increment, tol, remaining - 1);
        Outcome(o.final, o.last, o.iterations + 1, o.backoffs + (if it.backedOff then 1 else 0), o.converged)
  }

  /** The step size `a` after `k` backoffs. */
  function Shrunk(a: real, k: nat): real
    decreases k
  {
    if k == 0 then a else Shrunk(a * Backoff, k - 1)
  }

  /** Backoffs keep a positive step size positive and never make it larger. */
  lemma {:induction false} ShrunkBounds(a: real, k: nat)
    requires a > 0.0
    ensures 0.0 < Shrunk(a, k) <= a
    decreases k
  {
    if k > 0 {
      ShrunkBounds(a * Backoff, k - 1);
    }
  }

  /** `alpha` is multiplied by 0.9 once per backoff and is otherwise untouched. */
  lemma {:induction false} RunAlpha(s: RunState, loss: Vector --> real, increment: (Vector, real) --> Vector, tol: real, remaining: nat)
    requires LoopFunctions(loss, increment, |s.coefs|)
    ensures Run(s, loss, increment, tol, remaining).final.alpha
         == Shrunk(s.alpha, Run(s, loss, increment, tol, remaining).backoffs)
    decreases remaining
  {
    if remaining > 0 && !Step(s, loss, increment, tol).converged {
      var it := Step(s, loss, increment, tol);
      RunAlpha(it.next, loss, increment, tol, remaining - 1);
      RunUnfolds(s, loss, increment, tol, remaining);
    }
  }

  /** A pass that does not converge hands its state on to the remaining passes. */
  lemma RunUnfolds(s: RunState, loss: Vector --> real, increment: (Vector, real) --> Vector, tol: real, remaining: nat)
    requires LoopFunctions(loss, increment, |s.coefs|)
    requires remaining > 0 && !Step(s, loss, increment, tol).converged
    ensures var it := Step(s, loss, increment, tol);
            var o := Run(s, loss, increment, tol, remaining);
            var o' := Run(it.next, loss, increment, tol, remaining - 1);
            && o.final == o'.final
            && o.backoffs == o'.backoffs + (if it.backedOff then 1 else 0)
            && (it.backedOff ==> it.next.alpha == s.alpha * Backoff)
            && (!it.backedOff ==> it.next.alpha == s.alpha)
  {
  }

  /** So a positive step size stays positive and never grows. */
  lemma StepSizeShrinks(s: RunState, loss: Vector --> real, increment: (Vector, real) --> Vector, tol: real, remaining: nat)
    requires LoopFunctions(loss, increment, |s.coefs|) && s.alpha > 0.0
    ensures 0.0 < Run(s, loss, increment, tol, remaining).final.alpha <= s.alpha
  {
    RunAlpha(s, loss, increment, tol, remaining);
    ShrunkBounds(s.alpha, Run(s, loss, increment, tol, remaining).backoffs);
  }

  /** When every increment sums to zero, the coefficients keep their initial sum. */
  lemma {:induction false} RunPreservesSum(s: RunState, loss: Vector --> real, increment: (Vector, real) --> Vector, tol: real, remaining: nat)
    requires LoopFunctions(loss, increment, |s.coefs|)
    requires forall v: Vector, a: real :: |v| == |s.coefs| ==> Sum(increment(v, a)) == 0.0
    ensures Sum(Run(s, loss, increment, tol, remaining).final.coefs) == Sum(s.coefs)
    decreases remaining
  {
    if remaining > 0 {
      var it := Step(s, loss, increment, tol);
      if !it.backedOff {
        SumAdd(s.coefs, increment(s.coefs, s.alpha));
      }
      if !it.converged {
        RunPreservesSum(it.next, loss, increment, tol, remaining - 1);
      }
    }
  }

  /** `range(max_iter)` is empty for a negative count. */
  function Iterations(maxIter: int): nat {
    if maxIter < 0 then 0 else maxIter
  }

  /** The state before the first pass, as the source sets it up. */
  function InitialState(init: Vector, alpha: real): (s: RunState)
    ensures s.coefs == init && s.alpha == alpha && s.prevLoss == Sentinel
  {
    RunState(init, alpha, Sentinel)
  }

  /**
   * The body of the loop: computes the loss, applies the update, stops on
   * convergence, and otherwise either reverts the update and shrinks `alpha`
   * or records the loss.
   */
  method Pass(coefs: Vector, alpha: real, prevLoss: real, loss: Vector --> real, increment: (Vector, real) --> Vector,
              tol: real) returns (coefs': Vector, alpha': real, prevLoss': real, converged: bool)
    requires LoopFunctions(loss, increment, |coefs|)
    ensures RunState(coefs', alpha', prevLoss') == Step(RunState(coefs, alpha, prevLoss), loss, increment, tol).next
    ensures converged == Step(RunState(coefs, alpha, prevLoss), loss, increment, tol).converged
  {
    var l := loss(coefs);
    var previous := coefs;
    coefs' := Add(coefs, increment(coefs, alpha));
    alpha', prevLoss' := alpha, prevLoss;
    if l < tol {
      return coefs', alpha', prevLoss', true;
    }
    converged := false;
    if l > prevLoss {
      alpha' := alpha * Backoff;
      coefs' := previous;
    } else {
      prevLoss' := l;
    }
  }

  /** Where the run from `s` ends: the `final` part of Run, on its own. */
  ghost function Final(s: RunState, loss: Vector --> real, increment: (Vector, real) --> Vector, tol: real, remaining: nat): (f: RunState)
    requires LoopFunctions(loss, increment, |s.coefs|)
    ensures |f.coefs| == |s.coefs|
    decreases remaining
  {
    if remaining == 0 then s
    else
      var it := Step(s, loss, increment, tol);
      if it.converged then it.next else Final(it.next, loss, increment, tol, remaining - 1)
  }

  /** Final is the final state of Run. */
  lemma {:induction false} FinalOfRun(s: RunState, loss: Vector --> real, increment: (Vector, real) --> Vector, tol: real, remaining: nat)
    requires LoopFunctions(loss, increment, |s.coefs|)
    ensures Final(s, loss, increment, tol, remaining) == Run(s, loss, increment, tol, remaining).final
    decreases remaining
  {
    if remaining > 0 && !Step(s, loss, increment, tol).converged {
      FinalOfRun(Step(s, loss, increment, tol).next, loss, increment, tol, remaining - 1);
    }
  }

  /**
   * The loop of `polyreg`, for any `loss` and `increment`, from the state
   * `start`: it returns the final coefficients of Run.
   */
  method RegressionLoop(start: RunState, loss: Vector --> real, increment: (Vector, real) --> Vector,
                        tol: real, maxIter: int) returns (coefs: Vector)
    requires LoopFunctions(loss, increment, |start.coefs|)
    ensures coefs == Run(start, loss, increment, tol, Iterations(maxIter)).final.coefs
  {
    var n := Iterations(maxIter);
    FinalOfRun(start, loss, increment, tol, n);
    ghost var total := Final(start, loss, increment, tol, n);
    coefs := start.coefs;
    var a := start.alpha;
    var prevLoss := start.prevLoss;
    var i := 0;
    while i < n
      invariant 0 <= i <= n && |coefs| == |start.coefs|
      invariant total == Final(RunState(coefs, a, prevLoss), loss, increment, tol, n - i)
      decreases n - i
    {
      var converged;
      coefs, a, prevLoss, converged := Pass(coefs, a, prevLoss, loss, increment, tol);
      if converged {
        return;
      }
      i := i + 1;
    }
  }

  // ---------------------------------------------------------------------------
  // `polyreg` itself

  /** `calc_loss` for a fixed hull and target, as a function of the coefficients. */
  function LossOf(base: Matrix, target: Vector, exp: PositiveFn, n: nat): (loss: Vector --> real)
    requires IsMatrix(base, |target|, n)
    ensures forall v: Vector {:trigger loss(v)} {:trigger loss.requires(v)} :: |v| == n ==> loss.requires(v) && loss(v) == CalcLoss(base, target, exp, v)
  {
    (v: Vector) requires |v| == n => CalcLoss(base, target, exp, v)
  }

  /** `update_method(coefs, gradient, alpha)` for a gradient that sums to zero everywhere: so does the step. */
  function CoefficientStep(m: UpdateMethod, coefs: Vector, g: Gradient, alpha: real): (d: Vector)
    requires GradientOn(g, |coefs|)
    requires forall v: Vector {:trigger g(v)} :: |v| == |coefs| ==> Sum(g(v)) == 0.0
    ensures |d| == |coefs| && Sum(d) == 0.0
  {
    ZeroSumGradient(m, coefs, g, alpha);
    Update(m, coefs, g, alpha)
  }

  /** `update_method(coefs, gradient, alpha)` as a function of the coefficients and the step size. */
  function IncrementOf(m: UpdateMethod, g: Gradient, n: nat): (increment: (Vector, real) --> Vector)
    requires GradientOn(g, n)
    requires forall v: Vector {:trigger g(v)} :: |v| == n ==> Sum(g(v)) == 0.0
    ensures forall v: Vector, a: real :: |v| == n ==>
              increment.requires(v, a) && |increment(v, a)| == n && Sum(increment(v, a)) == 0.0
  {
    (v: Vector, a: real) requires |v| == n => CoefficientStep(m, v, g, a)
  }

  /** The increment at `v` with step size `a` is one step of `m` on the gradient. */
  lemma IncrementIsUpdate(m: UpdateMethod, g: Gradient, n: nat, v: Vector, a: real)
    requires GradientOn(g, n)
    requires forall v: Vector {:trigger g(v)} :: |v| == n ==> Sum(g(v)) == 0.0
    requires |v| == n
    ensures IncrementOf(m, g, n)(v, a) == Update(m, v, g, a)
  {
  }

  /**
   * `polyreg`, with the random initial coefficients as the parameter `init`:
   * reads (and caches) the hull's base, then runs the loop with the squared
   * error as the loss and `m` applied to the inverse gradient as the update.
   * The result has one coefficient per vertex and keeps the sum of `init`.
   */
  method Polyreg(hull: ConvexHull, target: Vector, exp: PositiveFn, m: UpdateMethod, init: Vector,
                 alpha: real, tol: real, maxIter: int) returns (coefs: Vector)
    requires hull.Valid() && hull.NumPoints() > 0
    requires |target| == |hull.points[0]| && |init| == hull.NumPoints()
    modifies hull
    ensures hull.Valid() && hull.cache == Some(Stack(hull.points))
    ensures |coefs| == hull.NumPoints() && Sum(coefs) == Sum(init)
    ensures coefs == Run(InitialState(init, alpha),
                         LossOf(Stack(hull.points), target, exp, |init|),
                         IncrementOf(m, InverseGradient(Stack(hull.points), target, exp, |init|), |init|),
                         tol, Iterations(maxIter)).final.coefs
  {
    var base := hull.Base();
    var n := |init|;
    var loss := LossOf(base, target, exp, n);
    var increment := IncrementOf(m, InverseGradient(base, target, exp, n), n);
    coefs := RegressionLoop(InitialState(init, alpha), loss, increment, tol, maxIter);
    RunPreservesSum(InitialState(init, alpha), loss, increment, tol, Iterations(maxIter));
  }

  // ---------------------------------------------------------------------------
  // The starting value of `prev_loss`

  /**
   * As written: from coefficients whose loss exceeds the recorded `prev_loss`
   * (and is not below `tol`) every pass backs off, so the loop never moves
   * them and never converges, whatever the number of iterations. The
   * recorded loss may be the starting sentinel or the loss of any earlier
   * pass.
   */
  lemma {:induction false} StallsAboveRecordedLoss(s: RunState, loss: Vector --> real, increment: (Vector, real) --> Vector, tol: real, remaining: nat)
    requires LoopFunctions(loss, increment, |s.coefs|)
    requires loss(s.coefs) > s.prevLoss && loss(s.coefs) >= tol
    ensures Run(s, loss, increment, tol, remaining).final.coefs == s.coefs
    ensures !Run(s, loss, increment, tol, remaining).converged
    ensures Run(s, loss, increment, tol, remaining).backoffs == remaining
    decreases remaining
  {
    if remaining > 0 {
      StallsAboveRecordedLoss(Step(s, loss, increment, tol).next, loss, increment, tol, remaining - 1);
    }
  }

  /**
   * A hull with the vertices 0 and 1 of the real line and the target 400: the
   * loss is at least 399 * 399 > 100000 for every coefficient vector, so
   * `polyreg` returns its initial coefficients unchanged.
   */
  lemma SentinelStallExample(exp: PositiveFn, m: UpdateMethod, init: Vector, alpha: real, tol: real, maxIter: int)
    requires |init| == 2 && tol <= Sentinel
    ensures Run(InitialState(init, alpha),
                LossOf(Stack([[0.0], [1.0]]), [400.0], exp, 2),
                IncrementOf(m, InverseGradient(Stack([[0.0], [1.0]]), [400.0], exp, 2), 2),
                tol, Iterations(maxIter)).final.coefs == init
  {
    var points: seq<Vector> := [[0.0], [1.0]];
    var base := Stack(points);
    var target: Vector := [400.0];
    var loss := LossOf(base, target, exp, 2);
    var increment := IncrementOf(m, InverseGradient(base, target, exp, 2), 2);
    assert Column(base, 0) == [0.0] && Column(base, 1) == [1.0];
    CombinationWithinBounds(base, exp, init, 0, 0.0, 1.0);
    var err := CalcError(base, target, exp, init);
    SubAt(target, ConvexCombination(base, exp, init), 0);
    LargeSquare(err);
    assert loss(init) == Dot(err, err);
    StallsAboveRecordedLoss(InitialState(init, alpha), loss, increment, tol, Iterations(maxIter));
  }

  lemma LargeSquare(err: Vector)
    requires |err| == 1 && err[0] >= 399.0
    ensures Dot(err, err) > Sentinel
  {
    var e := err[0];
    assert err[1..] == [];
    MulMonotone(e, 399.0, e);
    MulMonotone(399.0, 399.0, e);
  }

  /** Corrected: `prev_loss` starts at the loss of the initial coefficients. */
  function CorrectedInitialState(init: Vector, alpha: real, loss: Vector --> real): (s: RunState)
    requires loss.requires(init)
    ensures s.coefs == init && s.alpha == alpha && s.prevLoss == loss(init)
  {
    RunState(init, alpha, loss(init))
  }

  /**
   * From the corrected start the first pass never backs off: unless it
   * converges, it applies the update and records the initial loss.
   */
  lemma FirstStepNeverBacksOff(init: Vector, loss: Vector --> real, increment: (Vector, real) --> Vector, alpha: real, tol: real)
    requires LoopFunctions(loss, increment, |init|)
    ensures !Step(CorrectedInitialState(init, alpha, loss), loss, increment, tol).backedOff
    ensures Step(CorrectedInitialState(init, alpha, loss), loss, increment, tol).next.coefs
         == Add(init, increment(init, alpha))
  {
  }

  /**
   * `polyreg` with the corrected start: the same loop, with `prev_loss`
   * starting at the loss of the initial coefficients.
   */
  method CorrectedPolyreg(hull: ConvexHull, target: Vector, exp: PositiveFn, m: UpdateMethod, init: Vector,
                          alpha: real, tol: real, maxIter: int) returns (coefs: Vector)
    requires hull.Valid() && hull.NumPoints() > 0
    requires |target| == |hull.points[0]| && |init| == hull.NumPoints()
    modifies hull
    ensures hull.Valid() && hull.cache == Some(Stack(hull.points))
    ensures |coefs| == hull.NumPoints() && Sum(coefs) == Sum(init)
    ensures var loss := LossOf(Stack(hull.points), target, exp, |init|);
            coefs == Run(CorrectedInitialState(init, alpha, loss), loss,
                         IncrementOf(m, InverseGradient(Stack(hull.points), target, exp, |init|), |init|),
                         tol, Iterations(maxIter)).final.coefs
  {
    var base := hull.Base();
    var n := |init|;
    var loss := LossOf(base, target, exp, n);
    var increment := IncrementOf(m, InverseGradient(base, target, exp, n), n);
    coefs := RegressionLoop(CorrectedInitialState(init, alpha, loss), loss, increment, tol, maxIter);
    RunPreservesSum(CorrectedInitialState(init, alpha, loss), loss, increment, tol, Iterations(maxIter));
  }

  // ---------------------------------------------------------------------------
  // What a backoff reverts

  /**
   * As written: the comparison with `prev_loss` happens one pass after the
   * update that raised the loss, and reverts only the update of that later
   * pass. So an update that raises the loss is kept, and from then on the
   * loop stalls at the coefficients it produced and returns them.
   */
  lemma KeepsUpdateThatRaisedLoss(s: RunState, loss: Vector --> real, increment: (Vector, real) --> Vector, tol: real, remaining: nat)
    requires LoopFunctions(loss, increment, |s.coefs|) && remaining > 0
    requires tol <= loss(s.coefs) <= s.prevLoss
    requires loss(s.coefs) < loss(Add(s.coefs, increment(s.coefs, s.alpha)))
    ensures Run(s, loss, increment, tol, remaining).final.coefs == Add(s.coefs, increment(s.coefs, s.alpha))
    ensures !Run(s, loss, increment, tol, remaining).converged
  {
    var it := Step(s, loss, increment, tol);
    StallsAboveRecordedLoss(it.next, loss, increment, tol, remaining - 1);
    RunUnfolds(s, loss, increment, tol, remaining);
  }

  /**
   * Corrected pass: the update is judged by the loss it produces. When that
   * loss exceeds the current one the update is discarded, so the pass reverts
   * to the last accepted coefficients, and the step size shrinks.
   */
  function RevertingStep(s: RunState, loss: Vector --> real, increment: (Vector, real) --> Vector, tol: real): (it: Iteration)
    requires LoopFunctions(loss, increment, |s.coefs|)
    ensures |it.next.coefs| == |s.coefs|
    ensures it.converged <==> loss(s.coefs) < tol
    ensures it.converged ==> it.next.coefs == Add(s.coefs, increment(s.coefs, s.alpha))
    // a backoff happens exactly when the update would raise the loss ...
    ensures it.backedOff <==> !it.converged && loss(Add(s.coefs, increment(s.coefs, s.alpha))) > loss(s.coefs)
    ensures it.backedOff ==> it.next.coefs == s.coefs && it.next.alpha == s.alpha * Backoff
    ensures !it.converged && !it.backedOff ==> it.next.coefs == Add(s.coefs, increment(s.coefs, s.alpha))
    // ... so a pass that does not converge never raises the loss
    ensures !it.converged ==> loss(it.next.coefs) <= loss(s.coefs)
  {
    var l := loss(s.coefs);
    var moved := Add(s.coefs, increment(s.coefs, s.alpha));
    if l < tol then Iteration(RunState(moved, s.alpha, s.prevLoss), true, false)
    else
      var m := loss(moved);
      if m > l then Iteration(RunState(s.coefs, s.alpha * Backoff, s.prevLoss), false, true)
      else Iteration(RunState(moved, s.alpha, m), false, false)
  }

  /** How a corrected run ends: its final state, the state its last pass started from, and whether it converged. */
  datatype Ending = Ending(final: RunState, last: RunState, converged: bool)

  /** At most `remaining` corrected passes from `s`. */
  function RevertingRun(s: RunState, loss: Vector --> real, increment: (Vector, real) --> Vector, tol: real, remaining: nat): (e: Ending)
    requires LoopFunctions(loss, increment, |s.coefs|)
    ensures |e.final.coefs| == |s.coefs| && |e.last.coefs| == |s.coefs|
    decreases remaining
  {
    if remaining == 0 then Ending(s, s, false)
    else
      var it := RevertingStep(s, loss, increment, tol);
      if it.converged then Ending(it.next, s, true)
      else RevertingRun(it.next, loss, increment, tol, remaining - 1)
  }

  /**
   * The intended property: a corrected run never ends at coefficients whose
   * loss exceeds the starting loss. Without convergence it returns the state
   * it reached; with convergence it returns one update past a state whose
   * loss was below `tol`.
   */
  lemma {:induction false} RevertingRunNeverRaisesLoss(s: RunState, loss: Vector --> real, increment: (Vector, real) --> Vector, tol: real, remaining: nat)
    requires LoopFunctions(loss, increment, |s.coefs|)
    ensures var e := RevertingRun(s, loss, increment, tol, remaining);
            && loss(e.last.coefs) <= loss(s.coefs)
            && (!e.converged ==> e.final == e.last)
            && (e.converged ==>
                  loss(e.last.coefs) < tol && e.final.coefs == Add(e.last.coefs, increment(e.last.coefs, e.last.alpha)))
    decreases remaining
  {
    if remaining > 0 && !RevertingStep(s, loss, increment, tol).converged {
      RevertingRunNeverRaisesLoss(RevertingStep(s, loss, increment, tol).next, loss, increment, tol, remaining - 1);
    }
  }

  /** The corrected loop body, on the loop's own variables. */
  method RevertingPass(coefs: Vector, alpha: real, prevLoss: real, loss: Vector --> real, increment: (Vector, real) --> Vector,
                       tol: real) returns (coefs': Vector, alpha': real, prevLoss': real, converged: bool)
    requires LoopFunctions(loss, increment, |coefs|)
    ensures RunState(coefs', alpha', prevLoss') == RevertingStep(RunState(coefs, alpha, prevLoss), loss, increment, tol).next
    ensures converged == RevertingStep(RunState(coefs, alpha, prevLoss), loss, increment, tol).converged
  {
    var l := loss(coefs);
    coefs' := Add(coefs, increment(coefs, alpha));
    alpha', prevLoss' := alpha, prevLoss;
    if l < tol {
      return coefs', alpha', prevLoss', true;
    }
    converged := false;
    var m := loss(coefs');
    if m > l {
      alpha' := alpha * Backoff;
      coefs' := coefs;
    } else {
      prevLoss' := m;
    }
  }

  /**
   * The corrected loop: it returns the final coefficients of RevertingRun,
   * which by RevertingRunNeverRaisesLoss never have a larger loss than the
   * start unless the loop converged.
   */
  method RevertingLoop(start: RunState, loss: Vector --> real, increment: (Vector, real) --> Vector,
                       tol: real, maxIter: int) returns (coefs: Vector)
    requires LoopFunctions(loss, increment, |start.coefs|)
    ensures coefs == RevertingRun(start, loss, increment, tol, Iterations(maxIter)).final.coefs
  {
    var n := Iterations(maxIter);
    ghost var total := RevertingRun(start, loss, increment, tol, n).final;
    coefs := start.coefs;
    var a := start.alpha;
    var prevLoss := start.prevLoss;
    var i := 0;
    while i < n
      invariant 0 <= i <= n && |coefs| == |start.coefs|
      invariant total == RevertingRun(RunState(coefs, a, prevLoss), loss, increment, tol, n - i).final
      decreases n - i
    {
      var converged;
      coefs, a, prevLoss, converged := RevertingPass(coefs, a, prevLoss, loss, increment, tol);
      if converged {
        return;
      }
      i := i + 1;
    }
  }
}
