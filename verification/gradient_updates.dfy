/**
 * Explicit one-step integrators of the flow d(value)/dt = g(value)
 * (src/eukleides/gradient_updates.py). Each returns the increment that the
 * caller adds to `value`; `value` itself is an immutable sequence.
 */
module GradientUpdates {
  import opened Vectors

  /** A gradient function. numpy raises when shapes do not match, so it may be partial. */
  type Gradient = Vector --> Vector

  /** `g` maps every vector of length `n` to a vector of length `n`. */
  ghost predicate GradientOn(g: Gradient, n: nat) {
    forall v: Vector :: |v| == n ==> g.requires(v) && |g(v)| == n
  }

  /** `euler_update`: one gradient evaluation at `value`. */
  function EulerUpdate(value: Vector, g: Gradient, alpha: real): (r: Vector)
    requires GradientOn(g, |value|)
    ensures |r| == |value|
  {
    Scale(alpha, g(value))
  }

  /** `improved_euler_update` (Heun): the mean of the gradients at `value` and at the Euler prediction. */
  function ImprovedEulerUpdate(value: Vector, g: Gradient, alpha: real): (r: Vector)
    requires GradientOn(g, |value|)
    ensures |r| == |value|
  {
    var first := g(value);
    var second := g(Add(value, Scale(alpha, first)));
    Scale(0.5 * alpha, Add(first, second))
  }

  /** `runge_kutta_update`: the classical fourth-order scheme. */
  function RungeKuttaUpdate(value: Vector, g: Gradient, alpha: real): (r: Vector)
    requires GradientOn(g, |value|)
    ensures |r| == |value|
  {
    var first := g(value);
    var second := g(Add(value, Scale(0.5 * alpha, first)));
    var third := g(Add(value, Scale(0.5 * alpha, second)));
    var fourth := g(Add(value, Scale(alpha, third)));
    Scale(alpha / 6.0, Add(Add(Add(first, Scale(2.0, second)), Scale(2.0, third)), fourth))
  }

  /** The integrators a caller can choose from. */
  datatype UpdateMethod = Euler | ImprovedEuler | RungeKutta

  function Update(m: UpdateMethod, value: Vector, g: Gradient, alpha: real): (r: Vector)
    requires GradientOn(g, |value|)
    ensures |r| == |value|
  {
    match m
    case Euler => EulerUpdate(value, g, alpha)
    case ImprovedEuler => ImprovedEulerUpdate(value, g, alpha)
    case RungeKutta => RungeKuttaUpdate(value, g, alpha)
  }

  // ---------------------------------------------------------------------------
  // Reference definition: the explicit Runge-Kutta family given by a Butcher
  // tableau. Stage i evaluates g at value + alpha * sum_{j < i} a[i][j] k_j,
  // and the increment is alpha * sum_i b[i] k_i.

  datatype Tableau = Tableau(a: seq<seq<real>>, b: seq<real>) {
    predicate WellFormed() {
      |a| == |b| && forall i :: 0 <= i < |a| ==> |a[i]| == i
    }
  }

  /** sum_j c[j] * ks[j], for vectors of length `n`. */
  function Combination(c: seq<real>, ks: seq<Vector>, n: nat): (r: Vector)
    requires |c| == |ks| && forall j :: 0 <= j < |ks| ==> |ks[j]| == n
    ensures |r| == n
  {
    if |c| == 0 then Zero(n)
    else Add(Scale(c[0], ks[0]), Combination(c[1..], ks[1..], n))
  }

  /** The first `s` stage gradients of the scheme `t`. */
  function Stages(t: Tableau, value: Vector, g: Gradient, alpha: real, s: nat): (ks: seq<Vector>)
    requires t.WellFormed() && s <= |t.b| && GradientOn(g, |value|)
    ensures |ks| == s && forall j :: 0 <= j < s ==> |ks[j]| == |value|
  {
    if s == 0 then []
    else
      var prev := Stages(t, value, g, alpha, s - 1);
      prev + [g(Add(value, Scale(alpha, Combination(t.a[s - 1], prev, |value|))))]
  }

  function Increment(t: Tableau, value: Vector, g: Gradient, alpha: real): (r: Vector)
    requires t.WellFormed() && GradientOn(g, |value|)
    ensures |r| == |value|
  {
    Scale(alpha, Combination(t.b, Stages(t, value, g, alpha, |t.b|), |value|))
  }

  /** The Butcher tableau of each integrator. */
  function TableauOf(m: UpdateMethod): (t: Tableau)
    ensures t.WellFormed() && Sum(t.b) == 1.0
  {
    match m
    case Euler => Tableau([[]], [1.0])
    case ImprovedEuler => Tableau([[], [1.0]], [0.5, 0.5])
    case RungeKutta =>
      Tableau([[], [0.5], [0.0, 0.5], [0.0, 0.0, 1.0]], [1.0 / 6.0, 1.0 / 3.0, 1.0 / 3.0, 1.0 / 6.0])
  }

  lemma CombinationCons(c0: real, cs: seq<real>, k: Vector, ks: seq<Vector>)
    requires |cs| == |ks| && forall j :: 0 <= j < |ks| ==> |ks[j]| == |k|
    ensures Combination([c0] + cs, [k] + ks, |k|) == Add(Scale(c0, k), Combination(cs, ks, |k|))
  {
    assert ([c0] + cs)[1..] == cs;
    assert ([k] + ks)[1..] == ks;
  }

  lemma CombinationSingle(c: real, k: Vector)
    ensures Combination([c], [k], |k|) == Scale(c, k)
  {
    CombinationCons(c, [], k, []);
    assert [c] + [] == [c] && [k] + [] == [k];
    AddZero(Scale(c, k));
  }

  /** The first stage of every scheme evaluates the gradient at `value`. */
  lemma FirstStage(t: Tableau, value: Vector, g: Gradient, alpha: real)
    requires t.WellFormed() && |t.b| > 0 && GradientOn(g, |value|)
    ensures Stages(t, value, g, alpha, 1) == [g(value)]
  {
    var n := |value|;
    assert Stages(t, value, g, alpha, 0) == [];
    assert Combination(t.a[0], [], n) == Zero(n);
    ScaleZeroVector(alpha, n);
    AddZero(value);
  }

  lemma ScaleZeroVector(alpha: real, n: nat)
    ensures Scale(alpha, Zero(n)) == Zero(n)
  {
  }

  lemma EulerIsExplicitRungeKutta(value: Vector, g: Gradient, alpha: real)
    requires GradientOn(g, |value|)
    ensures EulerUpdate(value, g, alpha) == Increment(TableauOf(Euler), value, g, alpha)
  {
    var k1 := g(value);
    FirstStage(TableauOf(Euler), value, g, alpha);
    CombinationSingle(1.0, k1);
    ScaleScale(alpha, 1.0, 1.0 * alpha, k1);
  }

  lemma ImprovedEulerIsExplicitRungeKutta(value: Vector, g: Gradient, alpha: real)
    requires GradientOn(g, |value|)
    ensures ImprovedEulerUpdate(value, g, alpha) == Increment(TableauOf(ImprovedEuler), value, g, alpha)
  {
    var t := TableauOf(ImprovedEuler);
    var k1 := g(value);
    var k2 := g(Add(value, Scale(alpha, k1)));
    HeunStages(value, g, alpha);
    HeunWeights(k1, k2);
    HeunCombination(alpha, k1, k2);
  }

  /** The two stages of the improved Euler tableau: at `value` and at the Euler prediction. */
  lemma HeunStages(value: Vector, g: Gradient, alpha: real)
    requires GradientOn(g, |value|)
    ensures Stages(TableauOf(ImprovedEuler), value, g, alpha, 2)
         == [g(value), g(Add(value, Scale(alpha, g(value))))]
  {
    var t := TableauOf(ImprovedEuler);
    var k1 := g(value);
    FirstStage(t, value, g, alpha);
    CombinationSingle(1.0, k1);
    ScaleScale(alpha, 1.0, 1.0 * alpha, k1);
  }

  lemma HeunWeights(k1: Vector, k2: Vector)
    requires |k1| == |k2|
    ensures Combination([0.5, 0.5], [k1, k2], |k1|) == Add(Scale(0.5, k1), Scale(0.5, k2))
  {
    CombinationSingle(0.5, k2);
    CombinationCons(0.5, [0.5], k1, [k2]);
    assert [0.5] + [0.5] == [0.5, 0.5] && [k1] + [k2] == [k1, k2];
  }

  lemma HeunCombination(alpha: real, k1: Vector, k2: Vector)
    requires |k1| == |k2|
    ensures Scale(alpha, Add(Scale(0.5, k1), Scale(0.5, k2))) == Scale(0.5 * alpha, Add(k1, k2))
  {
    var c := Add(Scale(0.5, k1), Scale(0.5, k2));
    forall i | 0 <= i < |k1|
      ensures Scale(alpha, c)[i] == Scale(0.5 * alpha, Add(k1, k2))[i]
    {
      ScaleAt(alpha, c, i);
      AddAt(Scale(0.5, k1), Scale(0.5, k2), i);
      ScaleAt(0.5, k1, i);
      ScaleAt(0.5, k2, i);
      ScaleAt(0.5 * alpha, Add(k1, k2), i);
      AddAt(k1, k2, i);
      HeunScalar(alpha, k1[i], k2[i]);
    }
  }

  lemma HeunScalar(alpha: real, x: real, y: real)
    ensures alpha * (0.5 * x + 0.5 * y) == 0.5 * alpha * (x + y)
  {
  }

  // Seq equalities between the arguments are not propagated through `Scale`
  // and `Add` cheaply by the solver; these two state the congruence once.
  lemma ScaleCongruence(a: real, u: Vector, v: Vector)
    requires u == v
    ensures Scale(a, u) == Scale(a, v)
  {
  }

  lemma AddCongruence(u: Vector, v: Vector, u': Vector, v': Vector)
    requires |u| == |v| && u == u' && v == v'
    ensures Add(u, v) == Add(u', v')
  {
  }

  lemma ThirdStageCombination(k1: Vector, k2: Vector)
    requires |k1| == |k2|
    ensures Combination([0.0, 0.5], [k1, k2], |k1|) == Scale(0.5, k2)
  {
    var n := |k1|;
    calc {
      Combination([0.0, 0.5], [k1, k2], n);
      { CombinationCons(0.0, [0.5], k1, [k2]);
        assert [0.0] + [0.5] == [0.0, 0.5] && [k1] + [k2] == [k1, k2]; }
      Add(Scale(0.0, k1), Combination([0.5], [k2], n));
      { CombinationSingle(0.5, k2); ScaleZero(k1);
        AddCongruence(Scale(0.0, k1), Combination([0.5], [k2], n), Zero(n), Scale(0.5, k2)); }
      Add(Zero(n), Scale(0.5, k2));
      { ZeroAdd(Scale(0.5, k2)); }
      Scale(0.5, k2);
    }
  }

  lemma RungeKuttaThirdStage(alpha: real, k1: Vector, k2: Vector)
    requires |k1| == |k2|
    ensures Scale(alpha, Combination([0.0, 0.5], [k1, k2], |k1|)) == Scale(0.5 * alpha, k2)
  {
    ThirdStageCombination(k1, k2);
    ScaleCongruence(alpha, Combination([0.0, 0.5], [k1, k2], |k1|), Scale(0.5, k2));
    ScaleScale(alpha, 0.5, 0.5 * alpha, k2);
  }

  lemma FourthStageCombination(k1: Vector, k2: Vector, k3: Vector)
    requires |k1| == |k2| == |k3|
    ensures Combination([0.0, 0.0, 1.0], [k1, k2, k3], |k1|) == Scale(1.0, k3)
  {
    var n := |k1|;
    var tail := Combination([0.0, 1.0], [k2, k3], n);
    calc {
      Combination([0.0, 0.0, 1.0], [k1, k2, k3], n);
      { CombinationCons(0.0, [0.0, 1.0], k1, [k2, k3]);
        assert [0.0] + [0.0, 1.0] == [0.0, 0.0, 1.0] && [k1] + [k2, k3] == [k1, k2, k3]; }
      Add(Scale(0.0, k1), tail);
      { ScaleZero(k1); AddCongruence(Scale(0.0, k1), tail, Zero(n), tail); ZeroAdd(tail); }
      tail;
      { ThirdStageLikeTail(k2, k3); }
      Scale(1.0, k3);
    }
  }

  lemma ThirdStageLikeTail(k2: Vector, k3: Vector)
    requires |k2| == |k3|
    ensures Combination([0.0, 1.0], [k2, k3], |k2|) == Scale(1.0, k3)
  {
    var n := |k2|;
    calc {
      Combination([0.0, 1.0], [k2, k3], n);
      { CombinationCons(0.0, [1.0], k2, [k3]);
        assert [0.0] + [1.0] == [0.0, 1.0] && [k2] + [k3] == [k2, k3]; }
      Add(Scale(0.0, k2), Combination([1.0], [k3], n));
      { CombinationSingle(1.0, k3); ScaleZero(k2);
        AddCongruence(Scale(0.0, k2), Combination([1.0], [k3], n), Zero(n), Scale(1.0, k3)); }
      Add(Zero(n), Scale(1.0, k3));
      { ZeroAdd(Scale(1.0, k3)); }
      Scale(1.0, k3);
    }
  }

  lemma RungeKuttaFourthStage(alpha: real, k1: Vector, k2: Vector, k3: Vector)
    requires |k1| == |k2| == |k3|
    ensures Scale(alpha, Combination([0.0, 0.0, 1.0], [k1, k2, k3], |k1|)) == Scale(alpha, k3)
  {
    FourthStageCombination(k1, k2, k3);
    ScaleCongruence(alpha, Combination([0.0, 0.0, 1.0], [k1, k2, k3], |k1|), Scale(1.0, k3));
    ScaleScale(alpha, 1.0, 1.0 * alpha, k3);
  }

  lemma RungeKuttaScalar(alpha: real, a: real, b: real, c: real, d: real)
    ensures alpha * (1.0 / 6.0 * a + (1.0 / 3.0 * b + (1.0 / 3.0 * c + 1.0 / 6.0 * d)))
         == alpha / 6.0 * (a + 2.0 * b + 2.0 * c + d)
  {
  }

  /** The weighted sum of the four stages, written out. */
  function RungeKuttaSum(k1: Vector, k2: Vector, k3: Vector, k4: Vector): (r: Vector)
    requires |k1| == |k2| == |k3| == |k4|
    ensures |r| == |k1|
  {
    Add(Scale(1.0 / 6.0, k1), Add(Scale(1.0 / 3.0, k2), Add(Scale(1.0 / 3.0, k3), Scale(1.0 / 6.0, k4))))
  }

  lemma WeightsLastTwo(k3: Vector, k4: Vector)
    requires |k3| == |k4|
    ensures Combination([1.0 / 3.0, 1.0 / 6.0], [k3, k4], |k3|)
         == Add(Scale(1.0 / 3.0, k3), Scale(1.0 / 6.0, k4))
  {
    CombinationCons(1.0 / 3.0, [1.0 / 6.0], k3, [k4]);
    assert [1.0 / 3.0] + [1.0 / 6.0] == [1.0 / 3.0, 1.0 / 6.0] && [k3] + [k4] == [k3, k4];
    CombinationSingle(1.0 / 6.0, k4);
    AddCongruence(Scale(1.0 / 3.0, k3), Combination([1.0 / 6.0], [k4], |k3|),
                  Scale(1.0 / 3.0, k3), Scale(1.0 / 6.0, k4));
  }

  lemma WeightsLastThree(k2: Vector, k3: Vector, k4: Vector)
    requires |k2| == |k3| == |k4|
    ensures Combination([1.0 / 3.0, 1.0 / 3.0, 1.0 / 6.0], [k2, k3, k4], |k2|)
         == Add(Scale(1.0 / 3.0, k2), Add(Scale(1.0 / 3.0, k3), Scale(1.0 / 6.0, k4)))
  {
    CombinationCons(1.0 / 3.0, [1.0 / 3.0, 1.0 / 6.0], k2, [k3, k4]);
    assert [1.0 / 3.0] + [1.0 / 3.0, 1.0 / 6.0] == [1.0 / 3.0, 1.0 / 3.0, 1.0 / 6.0];
    assert [k2] + [k3, k4] == [k2, k3, k4];
    WeightsLastTwo(k3, k4);
    AddCongruence(Scale(1.0 / 3.0, k2), Combination([1.0 / 3.0, 1.0 / 6.0], [k3, k4], |k2|),
                  Scale(1.0 / 3.0, k2), Add(Scale(1.0 / 3.0, k3), Scale(1.0 / 6.0, k4)));
  }

  lemma CombinationFour(c1: real, c2: real, c3: real, c4: real,
                        k1: Vector, k2: Vector, k3: Vector, k4: Vector, rest: Vector)
    requires |k1| == |k2| == |k3| == |k4|
    requires Combination([c2, c3, c4], [k2, k3, k4], |k1|) == rest
    ensures Combination([c1, c2, c3, c4], [k1, k2, k3, k4], |k1|) == Add(Scale(c1, k1), rest)
  {
    assert [c1, c2, c3, c4][1..] == [c2, c3, c4];
    assert [k1, k2, k3, k4][1..] == [k2, k3, k4];
    AddCongruence(Scale(c1, k1), Combination([c2, c3, c4], [k2, k3, k4], |k1|), Scale(c1, k1), rest);
  }

  lemma RungeKuttaWeightsCombination(k1: Vector, k2: Vector, k3: Vector, k4: Vector)
    requires |k1| == |k2| == |k3| == |k4|
    ensures Combination([1.0 / 6.0, 1.0 / 3.0, 1.0 / 3.0, 1.0 / 6.0], [k1, k2, k3, k4], |k1|)
         == RungeKuttaSum(k1, k2, k3, k4)
  {
    WeightsLastThree(k2, k3, k4);
    CombinationFour(1.0 / 6.0, 1.0 / 3.0, 1.0 / 3.0, 1.0 / 6.0, k1, k2, k3, k4,
                    Add(Scale(1.0 / 3.0, k2), Add(Scale(1.0 / 3.0, k3), Scale(1.0 / 6.0, k4))));
  }

  lemma RungeKuttaSumAt(k1: Vector, k2: Vector, k3: Vector, k4: Vector, i: nat)
    requires |k1| == |k2| == |k3| == |k4| && i < |k1|
    ensures RungeKuttaSum(k1, k2, k3, k4)[i]
         == 1.0 / 6.0 * k1[i] + (1.0 / 3.0 * k2[i] + (1.0 / 3.0 * k3[i] + 1.0 / 6.0 * k4[i]))
  {
    var inner := Add(Scale(1.0 / 3.0, k3), Scale(1.0 / 6.0, k4));
    AddAt(Scale(1.0 / 6.0, k1), Add(Scale(1.0 / 3.0, k2), inner), i);
    AddAt(Scale(1.0 / 3.0, k2), inner, i);
    AddAt(Scale(1.0 / 3.0, k3), Scale(1.0 / 6.0, k4), i);
    ScaleAt(1.0 / 6.0, k1, i);
    ScaleAt(1.0 / 3.0, k2, i);
    ScaleAt(1.0 / 3.0, k3, i);
    ScaleAt(1.0 / 6.0, k4, i);
  }

  lemma RungeKuttaFormulaAt(alpha: real, k1: Vector, k2: Vector, k3: Vector, k4: Vector, i: nat)
    requires |k1| == |k2| == |k3| == |k4| && i < |k1|
    ensures Scale(alpha / 6.0, Add(Add(Add(k1, Scale(2.0, k2)), Scale(2.0, k3)), k4))[i]
         == alpha / 6.0 * (k1[i] + 2.0 * k2[i] + 2.0 * k3[i] + k4[i])
  {
    var s2 := Add(k1, Scale(2.0, k2));
    var s3 := Add(s2, Scale(2.0, k3));
    ScaleAt(alpha / 6.0, Add(s3, k4), i);
    AddAt(s3, k4, i);
    AddAt(s2, Scale(2.0, k3), i);
    AddAt(k1, Scale(2.0, k2), i);
    ScaleAt(2.0, k2, i);
    ScaleAt(2.0, k3, i);
  }

  lemma RungeKuttaSumScaled(alpha: real, k1: Vector, k2: Vector, k3: Vector, k4: Vector)
    requires |k1| == |k2| == |k3| == |k4|
    ensures Scale(alpha, RungeKuttaSum(k1, k2, k3, k4))
         == Scale(alpha / 6.0, Add(Add(Add(k1, Scale(2.0, k2)), Scale(2.0, k3)), k4))
  {
    forall i | 0 <= i < |k1|
      ensures Scale(alpha, RungeKuttaSum(k1, k2, k3, k4))[i]
           == Scale(alpha / 6.0, Add(Add(Add(k1, Scale(2.0, k2)), Scale(2.0, k3)), k4))[i]
    {
      RungeKuttaSumScaledAt(alpha, k1, k2, k3, k4, i);
    }
  }

  lemma RungeKuttaSumScaledAt(alpha: real, k1: Vector, k2: Vector, k3: Vector, k4: Vector, i: nat)
    requires |k1| == |k2| == |k3| == |k4| && i < |k1|
    ensures Scale(alpha, RungeKuttaSum(k1, k2, k3, k4))[i]
         == Scale(alpha / 6.0, Add(Add(Add(k1, Scale(2.0, k2)), Scale(2.0, k3)), k4))[i]
  {
    ScaleAt(alpha, RungeKuttaSum(k1, k2, k3, k4), i);
    RungeKuttaSumAt(k1, k2, k3, k4, i);
    RungeKuttaFormulaAt(alpha, k1, k2, k3, k4, i);
    RungeKuttaScalar(alpha, k1[i], k2[i], k3[i], k4[i]);
  }

  lemma RungeKuttaWeights(alpha: real, k1: Vector, k2: Vector, k3: Vector, k4: Vector)
    requires |k1| == |k2| == |k3| == |k4|
    ensures Scale(alpha, Combination(TableauOf(RungeKutta).b, [k1, k2, k3, k4], |k1|))
         == Scale(alpha / 6.0, Add(Add(Add(k1, Scale(2.0, k2)), Scale(2.0, k3)), k4))
  {
    assert TableauOf(RungeKutta).b == [1.0 / 6.0, 1.0 / 3.0, 1.0 / 3.0, 1.0 / 6.0];
    RungeKuttaWeightsCombination(k1, k2, k3, k4);
    ScaleCongruence(alpha, Combination(TableauOf(RungeKutta).b, [k1, k2, k3, k4], |k1|),
                    RungeKuttaSum(k1, k2, k3, k4));
    RungeKuttaSumScaled(alpha, k1, k2, k3, k4);
  }

  lemma RungeKuttaIsExplicitRungeKutta(value: Vector, g: Gradient, alpha: real)
    requires GradientOn(g, |value|)
    ensures RungeKuttaUpdate(value, g, alpha) == Increment(TableauOf(RungeKutta), value, g, alpha)
  {
    var k1 := g(value);
    var k2 := g(Add(value, Scale(0.5 * alpha, k1)));
    var k3 := g(Add(value, Scale(0.5 * alpha, k2)));
    var k4 := g(Add(value, Scale(alpha, k3)));
    RungeKuttaStages(value, g, alpha);
    RungeKuttaWeights(alpha, k1, k2, k3, k4);
  }

  /** The four stages of the classical tableau are the four gradients `runge_kutta_update` evaluates. */
  lemma RungeKuttaStages(value: Vector, g: Gradient, alpha: real)
    requires GradientOn(g, |value|)
    ensures var k1 := g(value);
            var k2 := g(Add(value, Scale(0.5 * alpha, k1)));
            var k3 := g(Add(value, Scale(0.5 * alpha, k2)));
            var k4 := g(Add(value, Scale(alpha, k3)));
            Stages(TableauOf(RungeKutta), value, g, alpha, 4) == [k1, k2, k3, k4]
  {
    var t := TableauOf(RungeKutta);
    var k1 := g(value);
    var k2 := g(Add(value, Scale(0.5 * alpha, k1)));
    var k3 := g(Add(value, Scale(0.5 * alpha, k2)));
    FirstStage(t, value, g, alpha);
    CombinationSingle(0.5, k1);
    ScaleScale(alpha, 0.5, 0.5 * alpha, k1);
    assert Stages(t, value, g, alpha, 2) == [k1, k2];
    RungeKuttaThirdStage(alpha, k1, k2);
    assert Stages(t, value, g, alpha, 3) == [k1, k2, k3];
    RungeKuttaFourthStage(alpha, k1, k2, k3);
  }

  /** Each integrator computes exactly the increment of its Butcher tableau. */
  lemma UpdateIsExplicitRungeKutta(m: UpdateMethod, value: Vector, g: Gradient, alpha: real)
    requires GradientOn(g, |value|)
    ensures Update(m, value, g, alpha) == Increment(TableauOf(m), value, g, alpha)
  {
    match m
    case Euler => EulerIsExplicitRungeKutta(value, g, alpha);
    case ImprovedEuler => ImprovedEulerIsExplicitRungeKutta(value, g, alpha);
    case RungeKutta => RungeKuttaIsExplicitRungeKutta(value, g, alpha);
  }

  // ---------------------------------------------------------------------------
  // Consequences for the integrators, proved once for every tableau.

  /** With a zero step size no integrator moves `value`. */
  lemma ZeroStepSize(m: UpdateMethod, value: Vector, g: Gradient)
    requires GradientOn(g, |value|)
    ensures Update(m, value, g, 0.0) == Zero(|value|)
  {
    var t := TableauOf(m);
    UpdateIsExplicitRungeKutta(m, value, g, 0.0);
    ScaleZero(Combination(t.b, Stages(t, value, g, 0.0, |t.b|), |value|));
  }

  lemma ScaleAddSame(a: real, b: real, v: Vector)
    ensures Add(Scale(a, v), Scale(b, v)) == Scale(a + b, v)
  {
    forall i | 0 <= i < |v|
      ensures Add(Scale(a, v), Scale(b, v))[i] == Scale(a + b, v)[i]
    {
      AddAt(Scale(a, v), Scale(b, v), i);
      ScaleAt(a, v, i);
      ScaleAt(b, v, i);
      ScaleAt(a + b, v, i);
    }
  }

  /** Combining copies of one vector scales it by the sum of the weights. */
  lemma {:induction false} CombinationOfCopies(c: seq<real>, ks: seq<Vector>, v: Vector)
    requires |c| == |ks| && forall j :: 0 <= j < |ks| ==> ks[j] == v
    ensures Combination(c, ks, |v|) == Scale(Sum(c), v)
  {
    if |c| == 0 {
      ScaleZero(v);
    } else {
      var rest := Combination(c[1..], ks[1..], |v|);
      CombinationOfCopies(c[1..], ks[1..], v);
      AddCongruence(Scale(c[0], ks[0]), rest, Scale(c[0], v), Scale(Sum(c[1..]), v));
      ScaleAddSame(c[0], Sum(c[1..]), v);
    }
  }

  /** Every stage of a scheme applied to a constant gradient is that constant. */
  lemma {:induction false} StagesOfConstant(t: Tableau, value: Vector, g: Gradient, alpha: real, s: nat, k: Vector)
    requires t.WellFormed() && s <= |t.b| && GradientOn(g, |value|)
    requires forall v: Vector {:trigger g(v)} :: |v| == |value| ==> g(v) == k
    ensures forall j :: 0 <= j < s ==> Stages(t, value, g, alpha, s)[j] == k
  {
    if s > 0 {
      StagesOfConstant(t, value, g, alpha, s - 1, k);
    }
  }

  /**
   * When the gradient is the same vector `k` everywhere, all three integrators
   * agree with Euler's method: the increment is `alpha * k`.
   */
  lemma ConstantGradient(m: UpdateMethod, value: Vector, g: Gradient, alpha: real, k: Vector)
    requires GradientOn(g, |value|) && |k| == |value|
    requires forall v: Vector {:trigger g(v)} :: |v| == |value| ==> g(v) == k
    ensures Update(m, value, g, alpha) == Scale(alpha, k)
  {
    var t := TableauOf(m);
    var ks := Stages(t, value, g, alpha, |t.b|);
    UpdateIsExplicitRungeKutta(m, value, g, alpha);
    StagesOfConstant(t, value, g, alpha, |t.b|, k);
    CombinationOfCopies(t.b, ks, k);
    ScaleCongruence(alpha, Combination(t.b, ks, |value|), Scale(1.0, k));
    ScaleScale(alpha, 1.0, 1.0 * alpha, k);
  }

  /** A combination of vectors that each sum to zero sums to zero. */
  lemma {:induction false} CombinationOfZeroSums(c: seq<real>, ks: seq<Vector>, n: nat)
    requires |c| == |ks| && forall j :: 0 <= j < |ks| ==> |ks[j]| == n
    requires forall j :: 0 <= j < |ks| ==> Sum(ks[j]) == 0.0
    ensures Sum(Combination(c, ks, n)) == 0.0
  {
    if |c| == 0 {
      SumZero(n);
    } else {
      CombinationOfZeroSums(c[1..], ks[1..], n);
      SumAdd(Scale(c[0], ks[0]), Combination(c[1..], ks[1..], n));
      SumScale(c[0], ks[0]);
    }
  }

  /**
   * When every value of the gradient sums to zero, so does the increment of
   * each integrator: the update moves `value` within the hyperplane of
   * vectors with `value`'s sum.
   */
  lemma ZeroSumGradient(m: UpdateMethod, value: Vector, g: Gradient, alpha: real)
    requires GradientOn(g, |value|)
    requires forall v: Vector {:trigger g(v)} :: |v| == |value| ==> Sum(g(v)) == 0.0
    ensures Sum(Update(m, value, g, alpha)) == 0.0
  {
    var t := TableauOf(m);
    var ks := Stages(t, value, g, alpha, |t.b|);
    UpdateIsExplicitRungeKutta(m, value, g, alpha);
    StagesSumToZero(t, value, g, alpha, |t.b|);
    CombinationOfZeroSums(t.b, ks, |value|);
    SumScale(alpha, Combination(t.b, ks, |value|));
  }

  /** Stages inherit a zero sum from the gradient. */
  lemma StagesSumToZero(t: Tableau, value: Vector, g: Gradient, alpha: real, s: nat)
    requires t.WellFormed() && s <= |t.b| && GradientOn(g, |value|)
    requires forall v: Vector {:trigger g(v)} :: |v| == |value| ==> Sum(g(v)) == 0.0
    ensures forall j :: 0 <= j < s ==> Sum(Stages(t, value, g, alpha, s)[j]) == 0.0
  {
    forall j | 0 <= j < s
      ensures Sum(Stages(t, value, g, alpha, s)[j]) == 0.0
    {
      StagesPrefix(t, value, g, alpha, s, j);
      LastStageSumsToZero(t, value, g, alpha, j + 1);
    }
  }

  /** Later stages do not change earlier ones. */
  lemma {:induction false} StagesPrefix(t: Tableau, value: Vector, g: Gradient, alpha: real, s: nat, j: nat)
    requires t.WellFormed() && j < s <= |t.b| && GradientOn(g, |value|)
    ensures Stages(t, value, g, alpha, s)[j] == Stages(t, value, g, alpha, j + 1)[j]
    decreases s
  {
    if s > j + 1 {
      StagesPrefix(t, value, g, alpha, s - 1, j);
    }
  }

  lemma LastStageSumsToZero(t: Tableau, value: Vector, g: Gradient, alpha: real, s: nat)
    requires t.WellFormed() && 0 < s <= |t.b| && GradientOn(g, |value|)
    requires forall v: Vector {:trigger g(v)} :: |v| == |value| ==> Sum(g(v)) == 0.0
    ensures Sum(Stages(t, value, g, alpha, s)[s - 1]) == 0.0
  {
    var prev := Stages(t, value, g, alpha, s - 1);
    var v := Add(value, Scale(alpha, Combination(t.a[s - 1], prev, |value|)));
    assert Stages(t, value, g, alpha, s)[s - 1] == g(v);
    assert Sum(g(v)) == 0.0;
  }
}
