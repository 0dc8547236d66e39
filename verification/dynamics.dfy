/**
 * The physics of the double pendulum over the reals: the state vector, the
 * bob positions, the equations of motion and the fourth-order Runge-Kutta
 * combination. The trigonometric functions are not defined here: they are
 * handed in as a `Trig` value and stay uninterpreted, so every property below
 * holds for any `sin` and `cos` except for what a lemma asks of them in its
 * requires: `sin(0) == 0` for the rest state, `cos(0) == 1` for the hanging
 * positions, cosine within [-1, 1] for the denominator bound and
 * sin^2 + cos^2 == 1 for the arm lengths.
 */
module Dynamics {

  /** The state vector [theta1, theta2, omega1, omega2]; also its time derivative. */
  datatype Vec4 = Vec4(theta1: real, theta2: real, omega1: real, omega2: real)

  const Zero := Vec4(0.0, 0.0, 0.0, 0.0)

  function Add(u: Vec4, v: Vec4): Vec4
  {
    Vec4(u.theta1 + v.theta1, u.theta2 + v.theta2, u.omega1 + v.omega1, u.omega2 + v.omega2)
  }

  function Scale(c: real, v: Vec4): Vec4
  {
    Vec4(c * v.theta1, c * v.theta2, c * v.omega1, c * v.omega2)
  }

  /** The sine and cosine the simulation uses, left uninterpreted. */
  datatype Trig = Trig(sin: real -> real, cos: real -> real)

  /** The physical constants, fixed when the pendulum is built. */
  datatype Params = Params(length1: real, length2: real, mass1: real, mass2: real, gravity: real)

  /** Cartesian positions of the two bobs. */
  datatype Bobs = Bobs(x1: real, y1: real, x2: real, y2: real)

  /** The bob positions the angles determine, the pivot at the origin. */
  function Positions(trig: Trig, p: Params, theta1: real, theta2: real): Bobs
  {
    var x1 := p.length1 * trig.sin(theta1);
    var y1 := -p.length1 * trig.cos(theta1);
    Bobs(x1, y1, x1 + p.length2 * trig.sin(theta2), y1 - p.length2 * trig.cos(theta2))
  }

  /**
   * Division as the equations use it. Where the divisor is zero the floating
   * point result is infinite or NaN, which the reals cannot hold; the model
   * returns 0 there and `Finite` says when that case is excluded.
   */
  function Quot(n: real, d: real): real
  {
    if d == 0.0 then 0.0 else n / d
  }

  /** The common denominator 2*m1 + m2 - m2*cos(2*(theta1 - theta2)). */
  function Denominator(trig: Trig, p: Params, y: Vec4): real
  {
    2.0 * p.mass1 + p.mass2 - p.mass2 * trig.cos(2.0 * (y.theta1 - y.theta2))
  }

  /** Both angular accelerations are finite at `y`: no division by zero. */
  predicate Finite(trig: Trig, p: Params, y: Vec4)
  {
    p.length1 * Denominator(trig, p, y) != 0.0 && p.length2 * Denominator(trig, p, y) != 0.0
  }

  /**
   * The equations of motion: the time derivative of the state `y`. The angles
   * change at the angular velocities; the velocities change at the angular
   * accelerations of the frictionless double pendulum.
   */
  function Derivatives(trig: Trig, p: Params, y: Vec4): (d: Vec4)
    ensures d.theta1 == y.omega1 && d.theta2 == y.omega2
  {
    var t1, t2, w1, w2 := y.theta1, y.theta2, y.omega1, y.omega2;
    var m1, m2, l1, l2, g := p.mass1, p.mass2, p.length1, p.length2, p.gravity;
    var delta := t1 - t2;
    var denom := Denominator(trig, p, y);
    var num1 := -g * (2.0 * m1 + m2) * trig.sin(t1) - m2 * g * trig.sin(t1 - 2.0 * t2);
    var num2 := -2.0 * trig.sin(delta) * m2 * (w2 * w2 * l2 + w1 * w1 * l1 * trig.cos(delta));
    var alpha1 := Quot(num1 + num2, l1 * denom);
    var num3 := 2.0 * trig.sin(delta);
    var num4 := w1 * w1 * l1 * (m1 + m2) + g * (m1 + m2) * trig.cos(t1) + w2 * w2 * l2 * m2 * trig.cos(delta);
    var alpha2 := Quot(num3 * num4, l2 * denom);
    Vec4(w1, w2, alpha1, alpha2)
  }

  /** The equations of motion as a vector field over states. */
  function Field(trig: Trig, p: Params): Vec4 -> Vec4
  {
    y => Derivatives(trig, p, y)
  }

  /** y + (k1 + 2*k2 + 2*k3 + k4)/6, with the stages already scaled by the step. */
  function Combine(y: Vec4, k1: Vec4, k2: Vec4, k3: Vec4, k4: Vec4): Vec4
  {
    Add(y, Scale(1.0 / 6.0, Add(Add(Add(k1, Scale(2.0, k2)), Scale(2.0, k3)), k4)))
  }

  /** One classical Runge-Kutta step of size `dt` for the field `f` from `y`. */
  function Rk4(f: Vec4 -> Vec4, y: Vec4, dt: real): Vec4
  {
    var k1 := Scale(dt, f(y));
    var k2 := Scale(dt, f(Add(y, Scale(0.5, k1))));
    var k3 := Scale(dt, f(Add(y, Scale(0.5, k2))));
    var k4 := Scale(dt, f(Add(y, k3)));
    Combine(y, k1, k2, k3, k4)
  }

  /** Where the field vanishes every stage is zero, so the step stays put. */
  lemma Rk4StaysWhereFieldVanishes(f: Vec4 -> Vec4, y: Vec4, dt: real)
    requires f(y) == Zero
    ensures Rk4(f, y, dt) == y
  {
    var k1 := Scale(dt, f(y));
    assert k1 == Zero;
    var y2 := Add(y, Scale(0.5, k1));
    assert y2 == y;
    var k2 := Scale(dt, f(y2));
    assert k2 == Zero;
    var y3 := Add(y, Scale(0.5, k2));
    assert y3 == y;
    var k3 := Scale(dt, f(y3));
    assert k3 == Zero;
    var y4 := Add(y, k3);
    assert y4 == y;
    var k4 := Scale(dt, f(y4));
    assert k4 == Zero;
    assert Rk4(f, y, dt) == Combine(y, k1, k2, k3, k4);
    assert Combine(y, Zero, Zero, Zero, Zero) == y;
  }

  /** The weights sum to one: for a constant field the step is exact. */
  lemma Rk4ExactForConstantField(f: Vec4 -> Vec4, c: Vec4, y: Vec4, dt: real)
    requires forall z :: f(z) == c
    ensures Rk4(f, y, dt) == Add(y, Scale(dt, c))
  {
    var k := Scale(dt, c);
    assert f(y) == c;
    assert f(Add(y, Scale(0.5, k))) == c;
    assert f(Add(y, k)) == c;
    assert Combine(y, k, k, k, k) == Add(y, k);
  }

  /**
   * Hanging straight down at rest is an equilibrium: with sin(0) == 0 both
   * accelerations vanish, provided their denominators are not zero.
   */
  lemma RestIsEquilibrium(trig: Trig, p: Params)
    requires trig.sin(0.0) == 0.0
    requires Finite(trig, p, Zero)
    ensures Derivatives(trig, p, Zero) == Zero
  {
    assert 0.0 - 2.0 * 0.0 == 0.0 - 0.0 == 0.0;
  }

  /** So one Runge-Kutta step leaves the rest state where it is. */
  lemma RestIsFixedPoint(trig: Trig, p: Params, dt: real)
    requires trig.sin(0.0) == 0.0
    requires Finite(trig, p, Zero)
    ensures Rk4(Field(trig, p), Zero, dt) == Zero
  {
    RestIsEquilibrium(trig, p);
    Rk4StaysWhereFieldVanishes(Field(trig, p), Zero, dt);
  }

  /**
   * The same fact for a state `x` already known to be a step from the rest
   * state, so that a caller holding the step's result need not unfold it.
   */
  lemma StepFromRestStays(trig: Trig, p: Params, s: Vec4, dt: real, x: Vec4)
    requires trig.sin(0.0) == 0.0
    requires Finite(trig, p, Zero)
    requires s == Zero && x == Rk4(Field(trig, p), s, dt)
    ensures x == Zero
  {
    RestIsFixedPoint(trig, p, dt);
  }

  /** At rest both arms hang straight down from the pivot. */
  lemma HangsStraightDownAtRest(trig: Trig, p: Params)
    requires trig.sin(0.0) == 0.0 && trig.cos(0.0) == 1.0
    ensures Positions(trig, p, 0.0, 0.0) == Bobs(0.0, -p.length1, 0.0, -p.length1 - p.length2)
  {
  }

  /**
   * Cosine never leaves [-1, 1], so the common denominator is at least 2*m1
   * whenever the second mass is not negative.
   */
  lemma DenominatorAtLeast2M1(trig: Trig, p: Params, y: Vec4)
    requires -1.0 <= trig.cos(2.0 * (y.theta1 - y.theta2)) <= 1.0
    requires p.mass2 >= 0.0
    ensures Denominator(trig, p, y) >= 2.0 * p.mass1
  {
    var c := trig.cos(2.0 * (y.theta1 - y.theta2));
    assert p.mass2 * (1.0 - c) >= 0.0;
  }

  /**
   * For a physical pendulum (positive first mass, non-negative second mass,
   * arms of nonzero length) neither acceleration divides by zero.
   */
  lemma FiniteForPhysicalPendulum(trig: Trig, p: Params, y: Vec4)
    requires -1.0 <= trig.cos(2.0 * (y.theta1 - y.theta2)) <= 1.0
    requires p.mass1 > 0.0 && p.mass2 >= 0.0
    requires p.length1 != 0.0 && p.length2 != 0.0
    ensures Finite(trig, p, y)
  {
    DenominatorAtLeast2M1(trig, p, y);
    var d := Denominator(trig, p, y);
    assert d > 0.0;
    assert p.length1 * d != 0.0;
    assert p.length2 * d != 0.0;
  }

  /**
   * Where sine and cosine satisfy the Pythagorean identity, each arm keeps its
   * length: the first bob lies at distance l1 from the pivot and the second at
   * distance l2 from the first.
   */
  lemma RigidArms(trig: Trig, p: Params, theta1: real, theta2: real)
    requires trig.sin(theta1) * trig.sin(theta1) + trig.cos(theta1) * trig.cos(theta1) == 1.0
    requires trig.sin(theta2) * trig.sin(theta2) + trig.cos(theta2) * trig.cos(theta2) == 1.0
    ensures var b := Positions(trig, p, theta1, theta2);
      && b.x1 * b.x1 + b.y1 * b.y1 == p.length1 * p.length1
      && (b.x2 - b.x1) * (b.x2 - b.x1) + (b.y2 - b.y1) * (b.y2 - b.y1) == p.length2 * p.length2
  {
    var s1, c1 := trig.sin(theta1), trig.cos(theta1);
    var s2, c2 := trig.sin(theta2), trig.cos(theta2);
    var l1, l2 := p.length1, p.length2;
    assert (l1 * s1) * (l1 * s1) + (-l1 * c1) * (-l1 * c1) == l1 * l1 * (s1 * s1 + c1 * c1);
    assert (l2 * s2) * (l2 * s2) + (l2 * c2) * (l2 * c2) == l2 * l2 * (s2 * s2 + c2 * c2);
  }
}
