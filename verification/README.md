# eukleides in Dafny

A model of the numerical core of eukleides, a small Python library for
Euclidean geometry. The model covers:

- **Polytope regression.** `polyreg` looks for coefficients whose softmax
  weights the vertices of a convex hull so that their combination equals a
  target point. It follows the negative gradient of the squared error with an
  explicit integrator. Each pass first applies its update. When the loss of
  the coefficients the pass started from exceeds the last recorded loss, the
  pass discards the update it has just applied and multiplies the step size
  by 0.9. The coefficients that raised the loss were accepted by the previous
  pass and are kept, so from then on every pass backs off and the loop
  stalls (see "Findings").
- **Integrators.** The Euler, improved Euler (Heun) and classical
  Runge-Kutta increments for a gradient flow.
- **`EarlyStopper`.** It counts consecutive objectives that fail to improve
  on the best one seen.
- **Geometry containers.** Convex hulls (with their lazily stacked `base`
  matrix), linear constraints, polytopes and hyperplane membership.

All arithmetic is over exact reals. Vectors are `seq<real>`. A matrix is the
sequence of its rows. The exceptions the source raises are modelled member by
member:

- an `Err` of a `Result`: `Geometry.Contains`, `Convex.Check`,
  `Convex.CheckEach`, `Convex.Polytope.CheckAll` and the factories
  `Convex.NewConvexHull`, `Convex.NewLinearConstraint`, `Convex.NewPolytope`
  and `Optimization.NewEarlyStopper`;
- a `false` result: `Convex.Polytope.AddConstraint` returns `ok == false` and
  leaves the polytope unchanged where the source's assertion fails;
- a precondition: `Optimization.EarlyStopper.IsBetter` requires a best
  objective, `Optimization.EarlyStopper.Stop` requires `CanStop`, and
  `PolytopeRegression.Polyreg` requires a non-empty hull and a target of its
  dimension (see "Left out").

Modules, one per source file, plus two shared ones:

| file | module | models |
|---|---|---|
| results.dfy | Results | the exceptions raised, `Option`, `Result` |
| vectors.dfy | Vectors | the numpy operations used (dot, sums, scaling, `@`, `np.diag`, outer product) |
| geometry.dfy | Geometry | src/eukleides/geometry.py |
| convex.dfy | Convex | src/eukleides/convex.py |
| gradient_updates.dfy | GradientUpdates | src/eukleides/gradient_updates.py and the identical integrators of src/eukleides/optimization.py |
| optimization.dfy | Optimization | `EarlyStopper` of src/eukleides/optimization.py |
| polytope_regression.dfy | PolytopeRegression | src/eukleides/polytope_regression.py |

Notes on the modelling choices:

- **The integrators.** They are checked against an independent reference
  definition: the explicit Runge-Kutta increment of a Butcher tableau. Their
  properties (zero step size, constant gradient, zero-sum gradient) are proved
  once, for every tableau.
- **The `polyreg` loop.** It is an imperative method (`RegressionLoop`) over
  any loss and any update rule, whose body is the method `Pass`. It is proved equal to a recursive
  specification (`Run`). The backoff policy, the monotone `prev_loss`, the
  shrinking step size and the preserved coefficient sum are proved about `Run`.
- **The two corrections.** `CorrectedPolyreg` fixes only the starting
  `prev_loss`; it still runs the loop as written, so a later update that
  raises the loss still stalls it. `RevertingLoop` is the loop with the
  backoff corrected as well: an update is discarded when its own loss exceeds
  the current one.
- **Mutable classes.**
  - `ConvexHull`'s cache and `Polytope`'s constraint list are fields that the
    methods update, as in the source.
  - `EarlyStopper` is a class whose `Stop` method is proved against the pure
    transition `StopStep`.

## Model

| member | source | states |
|---|---|---|
| Geometry.Dim | src/eukleides/geometry.py:24-27 | the dimension of a plane is the length of its normal |
| Geometry.Contains | src/eukleides/geometry.py:29-33 | error exactly when the point's length differs from the normal's; otherwise true iff normal·point lies strictly within 1e-8 of the constant (the code subtracts the constant) |
| Geometry.OnPlaneIsContained | src/eukleides/geometry.py:29-33 | every point with normal·point equal to the constant is contained |
| Geometry.ContainsIgnoresOrthogonalShift | src/eukleides/geometry.py:29-33 | moving a point by a vector orthogonal to the normal does not change membership |
| Geometry.HorizontalPlaneExample | tests/eukleides/test_geometry.py:6-8 | the plane x = 0.5 of R^3 contains (0.5, 9, 1) |
| Convex.Stack | src/eukleides/convex.py:19-23 | `np.array(points).T` is a d x n matrix whose column i is points[i] |
| Convex.ConvexHull.constructor | src/eukleides/convex.py:12-16 | stores the points of one shape with an empty cache |
| Convex.NewConvexHull | src/eukleides/convex.py:12-16 | a hull is built iff all points have the first point's shape; otherwise the assertion error |
| Convex.ConvexHull.Base | src/eukleides/convex.py:18-23 | returns the stacked points; fills the cache on first access and never changes a filled cache |
| Convex.ReadBaseTwice | src/eukleides/convex.py:18-23 | two reads of `base` return the same matrix, the cached one |
| Convex.ConvexHull.NumPoints | src/eukleides/convex.py:25-28 | the number of points; for points of one shape it is the number of columns of the stacked `base` |
| Convex.NewLinearConstraint | src/eukleides/convex.py:35-38 | accepted iff the side is "eq", "leq" or "geq", keeping normal and constant; otherwise the assertion error |
| Convex.Check | src/eukleides/convex.py:40-48 | error iff the point's dimension is wrong; Eq is plane membership, Leq is normal·point <= constant + tol, Geq is normal·point >= constant - tol |
| Convex.EqWithinHalfSpaces | src/eukleides/convex.py:40-47 | a point accepted by an equality constraint is accepted by both half-space constraints of its plane |
| Convex.HalfSpacesMeetInClosedBand | src/eukleides/convex.py:40-47 | both half-spaces accept exactly the closed band of width 2 tol around the plane |
| Convex.LinearConstraintExample | tests/eukleides/test_convex.py:6-9 | the constraint x + y <= 1 contains (0.3, 0.7) and not (0.5, 9) |
| Convex.CheckEach | src/eukleides/convex.py:67-68 | `all` over the checks: Ok(true) iff every check is Ok(true); an error comes from some check; constraints of the point's dimension never raise |
| Convex.Polytope.constructor | src/eukleides/convex.py:53-57 | the dimension is the first normal's, and the constraints are kept as given |
| Convex.NewPolytope | src/eukleides/convex.py:53-57 | fails iff the list is empty or some normal differs in dimension from the first |
| Convex.Polytope.AddConstraint | src/eukleides/convex.py:63-65 | appends a constraint of the right dimension at the end and leaves the others in order; any other dimension changes nothing |
| Convex.Polytope.CheckAll | src/eukleides/convex.py:67-68 | error iff the point has another dimension; otherwise true iff every stored constraint accepts the point |
| GradientUpdates.EulerUpdate | src/eukleides/gradient_updates.py:10-11 | `alpha * g(value)`, of the value's length; EulerIsExplicitRungeKutta ties it to the one-stage tableau |
| GradientUpdates.ImprovedEulerUpdate | src/eukleides/gradient_updates.py:14-17 | `0.5 alpha (g(v) + g(v + alpha g(v)))`, of the value's length; ImprovedEulerIsExplicitRungeKutta ties it to Heun's tableau |
| GradientUpdates.RungeKuttaUpdate | src/eukleides/gradient_updates.py:20-27 | `(alpha/6)(k1 + 2k2 + 2k3 + k4)`, of the value's length; RungeKuttaIsExplicitRungeKutta ties it to the classical tableau |
| GradientUpdates.Update | src/eukleides/gradient_updates.py:10-27 | each integrator returns a vector of the value's length |
| GradientUpdates.TableauOf | src/eukleides/gradient_updates.py:10-27 | the Butcher tableaux of the three schemes are well formed and their weights sum to one |
| GradientUpdates.EulerIsExplicitRungeKutta | src/eukleides/gradient_updates.py:10-11 | `alpha * g(v)` is the one-stage explicit Runge-Kutta increment |
| GradientUpdates.ImprovedEulerIsExplicitRungeKutta | src/eukleides/gradient_updates.py:14-17 | `0.5 alpha (g(v) + g(v + alpha g(v)))` is the increment of Heun's tableau |
| GradientUpdates.HeunStages | src/eukleides/gradient_updates.py:15-16 | Heun's stages are the gradients at v and at v + alpha g(v) |
| GradientUpdates.RungeKuttaIsExplicitRungeKutta | src/eukleides/gradient_updates.py:20-27 | `(alpha/6)(k1 + 2k2 + 2k3 + k4)` is the increment of the classical fourth-order tableau |
| GradientUpdates.RungeKuttaStages | src/eukleides/gradient_updates.py:21-24 | the stages are the gradients at v, v + alpha/2 k1, v + alpha/2 k2 and v + alpha k3 |
| GradientUpdates.UpdateIsExplicitRungeKutta | src/eukleides/gradient_updates.py:10-27 | every integrator computes exactly its tableau's increment |
| GradientUpdates.ZeroStepSize | src/eukleides/gradient_updates.py:10-27 | with alpha = 0 every integrator returns the zero vector |
| GradientUpdates.ConstantGradient | src/eukleides/gradient_updates.py:10-27 | for a constant gradient k every integrator returns alpha k |
| GradientUpdates.ZeroSumGradient | src/eukleides/gradient_updates.py:10-27 | if every gradient value sums to zero, so does every integrator's increment |
| GradientUpdates.StagesSumToZero | src/eukleides/gradient_updates.py:10-27 | every stage gradient of a zero-sum flow sums to zero |
| GradientUpdates.CombinationOfCopies | src/eukleides/gradient_updates.py:10-27 | a weighted sum of copies of one vector scales it by the total weight |
| Optimization.ParseDirection | src/eukleides/optimization.py:39-41 | "maximize" and "minimize" are accepted, and every other direction is rejected |
| Optimization.Improves | src/eukleides/optimization.py:46-51 | a candidate improves on the best iff it is strictly greater when maximising, strictly smaller when minimising |
| Optimization.ImprovesIsStrict | src/eukleides/optimization.py:46-51 | an equal objective is never better, and "better" is asymmetric |
| Optimization.ImprovesDual | src/eukleides/optimization.py:46-51 | minimising is maximising with the two objectives swapped |
| Optimization.ImprovesTotal | src/eukleides/optimization.py:46-51 | two objectives neither of which is better than the other are equal |
| Optimization.NotImprovedTransitive | src/eukleides/optimization.py:46-51 | "not better than" is transitive |
| Optimization.EarlyStopper.IsBetter | src/eukleides/optimization.py:46-51 | strictly greater when maximising, strictly smaller when minimising |
| Optimization.EarlyStopper.constructor | src/eukleides/optimization.py:39-44 | keeps `max_fails` and the direction; best objective and counter start unset |
| Optimization.NewEarlyStopper | src/eukleides/optimization.py:39-44 | fails iff the direction is not one of the two names; otherwise an unset stopper |
| Optimization.EarlyStopper.Start | src/eukleides/optimization.py:53-55 | the counter becomes 0 and the best objective is kept |
| Optimization.EarlyStopper.Reset | src/eukleides/optimization.py:57-60 | the counter becomes 0 and the best objective is cleared |
| Optimization.StopStep | src/eukleides/optimization.py:62-76 | the first objective is only recorded; an improvement becomes the best and clears the counter; anything else adds one failure; stop iff a best existed and fails + 1 >= max_fails |
| Optimization.EarlyStopper.Stop | src/eukleides/optimization.py:62-76 | the new state and the answer are those of StopStep; callable unless the counter is unset when it must be incremented |
| Optimization.StopsAfterImprovement | src/eukleides/optimization.py:73-76 | after an improvement it stops iff max_fails <= 1 |
| Optimization.StopIsSticky | src/eukleides/optimization.py:66-76 | once it says stop, it keeps saying stop until an improvement |
| Optimization.StopRun | src/eukleides/optimization.py:62-76 | successive calls give one answer each and keep a best objective once one was seen |
| Optimization.RunKeepsBest | src/eukleides/optimization.py:62-72 | after any calls the best is one of the objectives seen, and none of them is better |
| Optimization.RunWithoutImprovement | src/eukleides/optimization.py:66-76 | k calls without improvement add k failures, and the i-th stops iff fails + i + 2 >= max_fails |
| PolytopeRegression.Softmax | src/eukleides/polytope_regression.py:14-16 | one entry per input; each entry is its exponential divided by the sum of all exponentials, a sum that is positive for a non-empty input; an empty input gives an empty output |
| PolytopeRegression.SoftmaxIsDistribution | src/eukleides/polytope_regression.py:14-16 | for a non-empty input every softmax entry lies in (0, 1], and the entries sum to 1 |
| PolytopeRegression.ConvexCombination | src/eukleides/polytope_regression.py:19-21 | `base @ softmax(c)`, one entry per coordinate of the vertices; CombinationWithinBounds places it in the hull |
| PolytopeRegression.CalcError | src/eukleides/polytope_regression.py:24-26 | the target minus the combination, of the target's length; it is the zero vector iff the combination equals the target |
| PolytopeRegression.CalcLoss | src/eukleides/polytope_regression.py:29-31 | the error's squared length, which is never negative |
| PolytopeRegression.CombinationWithinBounds | src/eukleides/polytope_regression.py:19-21 | every coordinate of the combination lies between the least and greatest value of that coordinate over the vertices |
| PolytopeRegression.LossIsSquaredDistance | src/eukleides/polytope_regression.py:24-31 | the loss is non-negative and zero iff the combination equals the target |
| PolytopeRegression.CombGradient | src/eukleides/polytope_regression.py:34-36 | the Jacobian is an n x n matrix |
| PolytopeRegression.CombGradientEntries | src/eukleides/polytope_regression.py:34-36 | entry (i, j) is [i = j] c_i - c_i c_j for c the softmax, and the matrix is symmetric |
| PolytopeRegression.CombGradientRowsSumToZero | src/eukleides/polytope_regression.py:34-36 | every row of the Jacobian sums to zero |
| PolytopeRegression.LossGradient | src/eukleides/polytope_regression.py:39-40 | `-(error @ base) @ comb_gradient(c)`, one entry per coefficient; LossGradientSumsToZero shows its entries sum to zero |
| PolytopeRegression.LossGradientSumsToZero | src/eukleides/polytope_regression.py:39-40 | the loss gradient's entries sum to zero |
| PolytopeRegression.DescentDirection | src/eukleides/polytope_regression.py:59-60 | minus the loss gradient has one entry per coefficient and sums to zero |
| PolytopeRegression.InverseGradient | src/eukleides/polytope_regression.py:59-60 | the flow is defined on every coefficient vector and each of its values sums to zero |
| PolytopeRegression.Step | src/eukleides/polytope_regression.py:67-82 | convergence is decided on the loss before the update and keeps the updated coefficients; a larger loss than prev_loss discards the update of this pass, keeping the coefficients the pass started from, and multiplies alpha by 0.9; otherwise the update stays and the loss is recorded; prev_loss never grows |
| PolytopeRegression.Run | src/eukleides/polytope_regression.py:66-84 | at most max_iter passes, exactly that many unless it converged; a converged run returns the update of a state whose loss was below tol; prev_loss never grows |
| PolytopeRegression.RunUnfolds | src/eukleides/polytope_regression.py:77-82 | a pass without convergence hands its state on, counts a backoff exactly when it backs off, and changes alpha only then |
| PolytopeRegression.ShrunkBounds | src/eukleides/polytope_regression.py:79 | repeated shrinking by 0.9 keeps a positive step size positive and no larger |
| PolytopeRegression.RunAlpha | src/eukleides/polytope_regression.py:77-79 | the final alpha is the initial one times 0.9 per backoff |
| PolytopeRegression.StepSizeShrinks | src/eukleides/polytope_regression.py:77-79 | a positive alpha stays positive and never grows |
| PolytopeRegression.RunPreservesSum | src/eukleides/polytope_regression.py:72-80 | with zero-sum increments the coefficients keep their initial sum |
| PolytopeRegression.InitialState | src/eukleides/polytope_regression.py:64-65 | the loop starts from the initial coefficients, the given alpha and prev_loss = 100000.0 |
| PolytopeRegression.Pass | src/eukleides/polytope_regression.py:67-82 | one pass of the loop body produces exactly the state and the convergence flag of Step |
| PolytopeRegression.RegressionLoop | src/eukleides/polytope_regression.py:66-86 | the loop returns the final coefficients of Run from its start state, for max_iter passes (none when negative) |
| PolytopeRegression.LossOf | src/eukleides/polytope_regression.py:29-31 | the loss function accepts every coefficient vector and is `calc_loss` |
| PolytopeRegression.CoefficientStep | src/eukleides/polytope_regression.py:73 | an integrator step on a zero-sum flow has the coefficients' length and sums to zero |
| PolytopeRegression.IncrementOf | src/eukleides/polytope_regression.py:73 | the update rule accepts every coefficient vector and step size, and its increments sum to zero |
| PolytopeRegression.IncrementIsUpdate | src/eukleides/polytope_regression.py:73 | the increment at v with step size a is one step of the chosen integrator on the inverse gradient, `update_method(v, inverse_gradient, alpha=a)` |
| PolytopeRegression.Polyreg | src/eukleides/polytope_regression.py:44-86 | reads and caches the hull's base; returns one coefficient per vertex; the coefficients keep the sum of the initial ones; the result is that of Run with the squared-error loss and the chosen integrator on the inverse gradient |
| PolytopeRegression.StallsAboveRecordedLoss | src/eukleides/polytope_regression.py:65-80 | from coefficients whose loss exceeds the recorded prev_loss (the sentinel or any earlier loss) and is not below tol, every pass backs off, the coefficients never move and the run never converges |
| PolytopeRegression.SentinelStallExample | src/eukleides/polytope_regression.py:65-80 | for the vertices 0 and 1 of the line and the target 400, `polyreg` returns its initial coefficients |
| PolytopeRegression.CorrectedInitialState | src/eukleides/polytope_regression.py:65 | corrected start: prev_loss is the loss of the initial coefficients |
| PolytopeRegression.FirstStepNeverBacksOff | src/eukleides/polytope_regression.py:65-82 | from the corrected start the first pass always applies its update |
| PolytopeRegression.CorrectedPolyreg | src/eukleides/polytope_regression.py:44-86 | `polyreg` from the corrected start: same guarantees on length and sum, and the result of Run from that start |
| PolytopeRegression.KeepsUpdateThatRaisedLoss | src/eukleides/polytope_regression.py:73-82 | as written: a pass from coefficients c with tol <= loss(c) <= prev_loss whose update raises the loss keeps that update, and the run returns c plus the update without converging |
| PolytopeRegression.RevertingStep | src/eukleides/polytope_regression.py:67-82 | corrected pass: converges as the source does; otherwise backs off exactly when the update would raise the loss, keeping the coefficients and multiplying alpha by 0.9, so the loss never rises |
| PolytopeRegression.RevertingRunNeverRaisesLoss | src/eukleides/polytope_regression.py:66-86 | a corrected run ends at a state whose loss is at most the starting loss; it returns that state, or one update past it when its loss was below tol |
| PolytopeRegression.RevertingPass | src/eukleides/polytope_regression.py:67-82 | the corrected loop body gives exactly RevertingStep's state and convergence flag |
| PolytopeRegression.RevertingLoop | src/eukleides/polytope_regression.py:66-86 | the corrected loop returns the final coefficients of RevertingRun |

## Left out

- Floating point. All arithmetic is over exact reals, so rounding, overflow and NaN are not modelled. The tolerance 1e-8 is an exact rational.
- PolytopeRegression.Exps: `np.exp` is a parameter of which only positivity is known; its values are not modelled.
- Polyreg: the random initial coefficients (`np.random.normal`) are the parameter `init`.
- Polyreg: requires a non-empty hull and a target of the hull's dimension. The source only fails on such input inside the first pass (a numpy shape error), and numpy broadcasting of a length-1 target is not modelled.
- Polyreg: the update method is chosen from the three integrators; any other callable is not modelled.
- Polyreg: the defaults alpha = 1.0, tol = 1e-4, max_iter = 10000 and Euler's method are ordinary parameters.
- Logging, `np.linalg.norm` of the gradient (only logged), the "did not converge" warning and `EarlyStopper`'s `print` calls are output only.
- The docstring claim that `polyreg` converges to the projection of the target on the hull. This is an analytic property of gradient flow, not something the loop guarantees.
- `polynomial_decrease_step` (src/eukleides/optimization.py:30-34) needs a fractional real power, which the model does not have.
- The integrators of src/eukleides/optimization.py:10-27 are the same text as those of gradient_updates.py and are modelled once.
- `start` and `reset` return the stopper itself for chaining; the methods here return nothing.
- The `ValueError` branches of `is_better` and `LinearConstraint.check` are unreachable through the constructors, which reject any other direction or side. In the source they become reachable when `direction` or `side` is reassigned afterwards; here both are enumerations, so that case is not modelled.
- Optimization.EarlyStopper.IsBetter: the source raises a `TypeError` when it compares with a best objective of `None` (src/eukleides/optimization.py:48,50); the model makes a set best objective a precondition instead. Optimization.EarlyStopper.Stop inherits this as the precondition `CanStop`.
- Convex.ConvexHull: the points are copied into an immutable field, while the source keeps the caller's list. A caller that mutates that list or its arrays after the first read of `base` leaves the cache stale, makes `num_points` disagree with `base`, and adds points that skipped the shape check; none of this is captured.
- Convex.NewLinearConstraint: the defaults `constant=0.0` and `side='leq'` are not modelled; both are ordinary parameters, so a caller such as tests/eukleides/test_convex.py:20-23, which relies on `side='leq'`, passes `"leq"` explicitly here.
- Optimization.NewEarlyStopper: the defaults `max_fails=3` and `direction='maximize'` are not modelled; both are ordinary parameters.
- Geometry.HyperPlane: the default `constant=0` is not modelled; the constant is always given.
- `Polytope` keeps the caller's list object and appends to it in place, so the caller sees the new constraint; the model copies the sequence, so this aliasing is not captured.
- `HyperPlane.project`, `Polytope.project` and `Polytope.contains` are called by tests but are not defined in the source files; they are not part of this model.
- The `HyperPlane` docstring says a point is on the plane when normal·x + constant = 0, but the code tests normal·x - constant; the model follows the code.
- Shapes are lengths: numpy arrays of rank other than one are not modelled.

## Findings

| source | as written | input that shows it | evidently intended | confidence | as-written member | corrected member |
|---|---|---|---|---|---|---|
| src/eukleides/polytope_regression.py:65 | `prev_loss` starts at 100000.0, so a first loss above it counts as an increase: every pass backs off and the coefficients never move | hull with vertices [0.0] and [1.0], target [400.0]: every loss is at least 399² > 100000, and `polyreg` returns its random start | start `prev_loss` at a value no loss exceeds, such as the initial loss, so the first pass can always apply its update | medium, not executed | PolytopeRegression.StallsAboveRecordedLoss | PolytopeRegression.FirstStepNeverBacksOff |
| src/eukleides/polytope_regression.py:77-80 | a rise in the loss is detected one pass after the update that caused it, and only the update of the detecting pass is reverted, so the coefficients that raised the loss are kept and every later pass backs off | any pass from coefficients c with tol <= loss(c) <= prev_loss whose update d gives loss(c + d) > loss(c), such as a step size that overshoots: `polyreg` returns c + d | discard an update whose loss exceeds the current loss, reverting to the last accepted coefficients | medium, not executed | PolytopeRegression.KeepsUpdateThatRaisedLoss | PolytopeRegression.RevertingRunNeverRaisesLoss |
