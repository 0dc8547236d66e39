/**
 * The simulation object: the live angular state, the physical constants, the
 * step size, the simulated time, the derived bob positions and the tip trail
 * with its cap. Each method updates the fields the way the simulator does.
 */
module Pendulum {

  import opened Wrappers
  import opened Dynamics
  import Trail

  /** The cap a new pendulum starts with. */
  const InitialMaxHistoryLength := 1000
  /** The smallest cap a caller can set. */
  const MinHistoryLength := 10
  /** The cap that stands for "unbounded". */
  const UnboundedHistoryLength := 1000000

  /*
   * The constructor's defaults are the exact values of the doubles the source
   * uses: the double nearest pi halved for the angles, and the doubles nearest
   * -9.8 and 0.01 for gravity and the step size. The other defaults (0, 1) are
   * exact doubles already.
   */
  const HalfPi: real := 1.5707963267948965579989817342720925807952880859375
  const DefaultGravity: real := -9.800000000000000710542735760100185871124267578125
  const DefaultDt: real := 0.01000000000000000020816681711721685132943093776702880859375

  /** The cap that a request for `length` points sets (`None` for unbounded). */
  function ClampCap(length: Option<int>): (cap: int)
    ensures cap >= MinHistoryLength
    ensures length.None? ==> cap == UnboundedHistoryLength
    ensures length.Some? && length.value >= MinHistoryLength ==> cap == length.value
    ensures length.Some? && length.value < MinHistoryLength ==> cap == MinHistoryLength
  {
    match length
    case None => UnboundedHistoryLength
    case Some(n) => if MinHistoryLength >= n then MinHistoryLength else n
  }

  /** Asking again for the cap that was set changes nothing. */
  lemma ClampCapIdempotent(length: Option<int>)
    ensures ClampCap(Some(ClampCap(length))) == ClampCap(length)
  {
  }

  class DoublePendulum {
    const trig: Trig

    var theta1: real
    var theta2: real
    var omega1: real
    var omega2: real

    var length1: real
    var length2: real
    var mass1: real
    var mass2: real
    var gravity: real

    var dt: real
    var time: real

    var x1: real
    var y1: real
    var x2: real
    var y2: real

    var tipHistory: seq<(real, real)>
    var maxHistoryLength: int

    function State(): Vec4
      reads this`theta1, this`theta2, this`omega1, this`omega2
    {
      Vec4(theta1, theta2, omega1, omega2)
    }

    function Constants(): Params
      reads this`length1, this`length2, this`mass1, this`mass2, this`gravity
    {
      Params(length1, length2, mass1, mass2, gravity)
    }

    function CurrentBobs(): Bobs
      reads this`x1, this`y1, this`x2, this`y2
    {
      Bobs(x1, y1, x2, y2)
    }

    /**
     * The object invariant: the cap is at least the minimum, the bob positions
     * agree with the angles, and the trail is never empty and ends at the tip.
     */
    ghost predicate Valid()
      reads this`maxHistoryLength, this`tipHistory, this`x1, this`y1, this`x2, this`y2
      reads this`theta1, this`theta2, this`length1, this`length2, this`mass1, this`mass2, this`gravity
    {
      && maxHistoryLength >= MinHistoryLength
      && CurrentBobs() == Positions(trig, Constants(), theta1, theta2)
      && |tipHistory| >= 1
      && tipHistory[|tipHistory| - 1] == (x2, y2)
    }

    constructor (trig: Trig, theta1: real := HalfPi, theta2: real := HalfPi,
                 omega1: real := 0.0, omega2: real := 0.0,
                 length1: real := 1.0, length2: real := 1.0,
                 mass1: real := 1.0, mass2: real := 1.0,
                 gravity: real := DefaultGravity, dt: real := DefaultDt)
      ensures Valid()
      ensures this.trig == trig
      ensures State() == Vec4(theta1, theta2, omega1, omega2)
      ensures Constants() == Params(length1, length2, mass1, mass2, gravity)
      ensures this.dt == dt && time == 0.0
      ensures maxHistoryLength == InitialMaxHistoryLength
      ensures tipHistory == [(x2, y2)]
    {
      this.trig := trig;
      this.theta1, this.theta2 := theta1, theta2;
      this.omega1, this.omega2 := omega1, omega2;
      this.length1, this.length2 := length1, length2;
      this.mass1, this.mass2 := mass1, mass2;
      this.gravity := gravity;
      this.dt := dt;
      time := 0.0;
      tipHistory := [];
      maxHistoryLength := InitialMaxHistoryLength;
      new;
      UpdatePositions();
    }

    /**
     * Recomputes the bob positions from the angles and appends the tip to the
     * trail, dropping the oldest points beyond the cap.
     */
    method UpdatePositions()
      requires maxHistoryLength >= MinHistoryLength
      modifies this`x1, this`y1, this`x2, this`y2, this`tipHistory
      ensures Valid()
      ensures tipHistory == Trail.Append(old(tipHistory), maxHistoryLength, (x2, y2))
      ensures |tipHistory| <= maxHistoryLength
    {
      var bobs := Positions(trig, Constants(), theta1, theta2);
      x1, y1, x2, y2 := bobs.x1, bobs.y1, bobs.x2, bobs.y2;
      var history := tipHistory + [(x2, y2)];
      if |history| > maxHistoryLength {
        history := history[|history| - maxHistoryLength..];
      }
      Trail.AppendBounded(tipHistory, maxHistoryLength, (x2, y2));
      tipHistory := history;
    }

    /**
     * The derivative at the state `y`, obtained by loading `y` into the live
     * angular fields, evaluating the equations of motion on them and putting
     * the saved values back.
     */
    method ComputeDerivativesVec(y: Vec4) returns (d: Vec4)
      modifies this`theta1, this`theta2, this`omega1, this`omega2
      ensures d == Derivatives(trig, Constants(), y)
      ensures theta1 == old(theta1) && theta2 == old(theta2)
      ensures omega1 == old(omega1) && omega2 == old(omega2)
    {
      var theta1Orig, theta2Orig := theta1, theta2;
      var omega1Orig, omega2Orig := omega1, omega2;
      theta1, theta2 := y.theta1, y.theta2;
      omega1, omega2 := y.omega1, y.omega2;
      d := Derivatives(trig, Constants(), State());
      theta1, theta2 := theta1Orig, theta2Orig;
      omega1, omega2 := omega1Orig, omega2Orig;
    }

    /**
     * The Runge-Kutta stages of a step of size `h` from the current state:
     * four derivative evaluations and their weighted combination. Each
     * evaluation overwrites and restores the angular fields, so they end as
     * they started.
     */
    method RungeKutta(h: real) returns (yNew: Vec4)
      modifies this`theta1, this`theta2, this`omega1, this`omega2
      ensures yNew == Rk4(Field(trig, old(Constants())), old(State()), h)
      ensures State() == old(State())
    {
      var y := State();
      var d1 := ComputeDerivativesVec(y);
      var k1 := Scale(h, d1);
      var d2 := ComputeDerivativesVec(Add(y, Scale(0.5, k1)));
      var k2 := Scale(h, d2);
      var d3 := ComputeDerivativesVec(Add(y, Scale(0.5, k2)));
      var k3 := Scale(h, d3);
      var d4 := ComputeDerivativesVec(Add(y, k3));
      var k4 := Scale(h, d4);
      yNew := Combine(y, k1, k2, k3, k4);
    }

    /**
     * Advances the state by one Runge-Kutta step of size `dt`, records the new
     * tip and advances the clock by `dt`.
     */
    method Step()
      requires Valid()
      modifies this`theta1, this`theta2, this`omega1, this`omega2, this`time
      modifies this`x1, this`y1, this`x2, this`y2, this`tipHistory
      ensures Valid()
      ensures State() == Rk4(Field(trig, old(Constants())), old(State()), old(dt))
      ensures time == old(time) + old(dt)
      ensures tipHistory == Trail.Append(old(tipHistory), maxHistoryLength, (x2, y2))
      ensures |tipHistory| <= maxHistoryLength
      ensures Constants() == old(Constants()) && dt == old(dt)
      ensures maxHistoryLength == old(maxHistoryLength)
    {
      var h := dt;
      var yNew := RungeKutta(h);
      theta1, theta2 := yNew.theta1, yNew.theta2;
      omega1, omega2 := yNew.omega1, yNew.omega2;
      UpdatePositions();
      time := time + h;
    }

    /**
     * Puts the pendulum back at rest: the angles given are taken over (the
     * others kept), the velocities and the clock are zeroed and the trail
     * starts afresh from the current tip.
     */
    method Reset(newTheta1: Option<real> := None, newTheta2: Option<real> := None)
      requires Valid()
      modifies this`theta1, this`theta2, this`omega1, this`omega2, this`time
      modifies this`x1, this`y1, this`x2, this`y2, this`tipHistory
      ensures Valid()
      ensures theta1 == (if newTheta1.Some? then newTheta1.value else old(theta1))
      ensures theta2 == (if newTheta2.Some? then newTheta2.value else old(theta2))
      ensures omega1 == 0.0 && omega2 == 0.0 && time == 0.0
      ensures tipHistory == [(x2, y2)]
      ensures unchanged(this`length1, this`length2, this`mass1, this`mass2, this`gravity, this`dt, this`maxHistoryLength)
    {
      TakeAngles(newTheta1, newTheta2);
      omega1 := 0.0;
      omega2 := 0.0;
      time := 0.0;
      tipHistory := [];
      UpdatePositions();
    }

    /** Takes over each angle that is given and keeps the other. */
    method TakeAngles(newTheta1: Option<real>, newTheta2: Option<real>)
      modifies this`theta1, this`theta2
      ensures theta1 == (if newTheta1.Some? then newTheta1.value else old(theta1))
      ensures theta2 == (if newTheta2.Some? then newTheta2.value else old(theta2))
    {
      if newTheta1.Some? {
        theta1 := newTheta1.value;
      }
      if newTheta2.Some? {
        theta2 := newTheta2.value;
      }
    }

    method GetPositions() returns (b: Bobs)
      requires Valid()
      ensures b == Positions(trig, Constants(), theta1, theta2)
    {
      b := Bobs(x1, y1, x2, y2);
    }

    method GetTipHistory() returns (h: seq<(real, real)>)
      requires Valid()
      ensures h == tipHistory
      ensures |h| >= 1 && h[|h| - 1] == (Positions(trig, Constants(), theta1, theta2).x2,
                                         Positions(trig, Constants(), theta1, theta2).y2)
    {
      h := tipHistory;
    }

    method GetTime() returns (t: real)
      ensures t == time
    {
      t := time;
    }

    /**
     * Sets the cap (`None` for unbounded). The stored trail is left as it is:
     * a lower cap takes effect at the next append.
     */
    method SetMaxHistoryLength(length: Option<int> := None)
      requires Valid()
      modifies this`maxHistoryLength
      ensures Valid()
      ensures maxHistoryLength == ClampCap(length)
    {
      maxHistoryLength := ClampCap(length);
    }
  }

  /**
   * A trail capped at a requested 5 points (clamped to 10) keeps exactly the
   * 10 newest of 50 further points.
   */
  lemma ClampedTrailKeepsTenNewest(h: seq<(real, real)>, ps: seq<(real, real)>)
    requires |ps| == 50
    ensures ClampCap(Some(5)) == 10
    ensures Trail.AppendAll(h, ClampCap(Some(5)), ps) == ps[40..]
  {
    Trail.AppendAllKeepsNewest(h, 10, ps);
    assert (h + ps)[|h + ps| - 10..] == ps[40..];
  }

  /**
   * With the unbounded cap, a one-point trail followed by 2000 points keeps
   * all 2001 of them.
   */
  lemma UnboundedTrailKeepsAll(h: seq<(real, real)>, ps: seq<(real, real)>)
    requires |h| == 1 && |ps| == 2000
    ensures Trail.AppendAll(h, ClampCap(None), ps) == h + ps
    ensures |Trail.AppendAll(h, ClampCap(None), ps)| == 2001
  {
    Trail.AppendAllWithinCap(h, UnboundedHistoryLength, ps);
  }

  /** The time `n` steps of size `d` take, summed step by step as the clock is. */
  function Elapsed(n: nat, d: real): (t: real)
    ensures t == (n as real) * d
  {
    if n == 0 then 0.0 else Elapsed(n - 1, d) + d
  }

  /**
   * A pendulum at rest stays at rest through a step: the object-level form of
   * `Dynamics.RestIsFixedPoint`.
   */
  method StepAtRest(p: DoublePendulum)
    requires p.Valid() && p.State() == Zero
    requires p.trig.sin(0.0) == 0.0 && Finite(p.trig, p.Constants(), Zero)
    modifies p`theta1, p`theta2, p`omega1, p`omega2, p`time
    modifies p`x1, p`y1, p`x2, p`y2, p`tipHistory
    ensures p.Valid() && p.State() == Zero
  {
    ghost var c, s, h := p.Constants(), p.State(), p.dt;
    p.Step();
    StepFromRestStays(p.trig, c, s, h, p.State());
  }

  /** The tip (second bob) of the pendulum in state `s`. */
  function Tip(trig: Trig, c: Params, s: Vec4): (real, real)
  {
    var b := Positions(trig, c, s.theta1, s.theta2);
    (b.x2, b.y2)
  }

  /**
   * `states` is a run of Runge-Kutta steps of size `d` and `tips` holds the
   * tip after each of them, in order.
   */
  ghost predicate Orbit(trig: Trig, c: Params, d: real, states: seq<Vec4>, tips: seq<(real, real)>)
  {
    && |states| == |tips| + 1
    && (forall j :: 0 <= j < |tips| ==> states[j + 1] == Rk4(Field(trig, c), states[j], d))
    && (forall j :: 0 <= j < |tips| ==> tips[j] == Tip(trig, c, states[j + 1]))
  }

  /** One more step extends a run. */
  lemma Extend(trig: Trig, c: Params, d: real, states: seq<Vec4>, tips: seq<(real, real)>, s: Vec4)
    requires Orbit(trig, c, d, states, tips)
    requires s == Rk4(Field(trig, c), states[|states| - 1], d)
    ensures Orbit(trig, c, d, states + [s], tips + [Tip(trig, c, s)])
  {
    var f, n := Field(trig, c), |tips|;
    var states', tips' := states + [s], tips + [Tip(trig, c, s)];
    forall j | 0 <= j < |tips'|
      ensures states'[j + 1] == Rk4(f, states'[j], d)
    {
      if j < n {
        assert states'[j + 1] == states[j + 1] && states'[j] == states[j];
      } else {
        assert states'[j + 1] == s && states'[j] == states[n];
      }
    }
    forall j | 0 <= j < |tips'|
      ensures tips'[j] == Tip(trig, c, states'[j + 1])
    {
      if j < n {
        assert tips'[j] == tips[j] && states'[j + 1] == states[j + 1];
      }
    }
  }

  /**
   * `n` steps in a row, as the animation loop performs them one per frame.
   * The states visited are a run of Runge-Kutta steps from the starting state,
   * the trail is the old one with the tip after each step appended in order
   * under the cap, and the clock has advanced by `n` steps.
   */
  method StepMany(p: DoublePendulum, n: nat) returns (ghost states: seq<Vec4>, ghost tips: seq<(real, real)>)
    requires p.Valid()
    modifies p`theta1, p`theta2, p`omega1, p`omega2, p`time
    modifies p`x1, p`y1, p`x2, p`y2, p`tipHistory
    ensures p.Valid()
    ensures |tips| == n && Orbit(p.trig, old(p.Constants()), old(p.dt), states, tips)
    ensures states[0] == old(p.State()) && p.State() == states[n]
    ensures p.tipHistory == Trail.AppendAll(old(p.tipHistory), p.maxHistoryLength, tips)
    ensures p.time == old(p.time) + Elapsed(n, old(p.dt))
    ensures p.Constants() == old(p.Constants()) && p.dt == old(p.dt)
    ensures p.maxHistoryLength == old(p.maxHistoryLength)
  {
    states, tips := [p.State()], [];
    var i := 0;
    ghost var t0, d, c := p.time, p.dt, p.Constants();
    while i < n
      invariant 0 <= i <= n && |tips| == i
      invariant p.Valid()
      invariant Orbit(p.trig, c, d, states, tips)
      invariant states[0] == old(p.State()) && p.State() == states[i]
      invariant p.tipHistory == Trail.AppendAll(old(p.tipHistory), p.maxHistoryLength, tips)
      invariant p.time == t0 + Elapsed(i, d)
      invariant p.Constants() == c && p.dt == d
      invariant p.maxHistoryLength == old(p.maxHistoryLength)
    {
      p.Step();
      Extend(p.trig, c, d, states, tips, p.State());
      Trail.AppendAllSnoc(old(p.tipHistory), p.maxHistoryLength, tips, (p.x2, p.y2));
      states, tips := states + [p.State()], tips + [(p.x2, p.y2)];
      i := i + 1;
    }
  }

  /**
   * Asking for a 5-point trail and stepping 50 times leaves exactly the tips
   * of the last 10 steps.
   */
  method FiftyStepsUnderCapFive(p: DoublePendulum) returns (ghost states: seq<Vec4>, ghost tips: seq<(real, real)>)
    requires p.Valid()
    modifies p`theta1, p`theta2, p`omega1, p`omega2, p`time
    modifies p`x1, p`y1, p`x2, p`y2, p`tipHistory, p`maxHistoryLength
    ensures p.Valid()
    ensures |tips| == 50 && Orbit(p.trig, old(p.Constants()), old(p.dt), states, tips)
    ensures states[0] == old(p.State()) && p.State() == states[50]
    ensures p.maxHistoryLength == 10
    ensures p.tipHistory == tips[40..]
  {
    p.SetMaxHistoryLength(Some(5));
    ghost var h := p.tipHistory;
    states, tips := StepMany(p, 50);
    ClampedTrailKeepsTenNewest(h, tips);
  }

  /**
   * After a reset and the unbounded cap, 2000 steps keep every tip: the one
   * the reset recorded, then the tip after each step, in order.
   */
  method UnboundedAfterReset(p: DoublePendulum)
    returns (ghost first: (real, real), ghost states: seq<Vec4>, ghost tips: seq<(real, real)>)
    requires p.Valid()
    modifies p`theta1, p`theta2, p`omega1, p`omega2, p`time
    modifies p`x1, p`y1, p`x2, p`y2, p`tipHistory, p`maxHistoryLength
    ensures p.Valid()
    ensures |tips| == 2000 && Orbit(p.trig, old(p.Constants()), old(p.dt), states, tips)
    ensures states[0] == Vec4(old(p.theta1), old(p.theta2), 0.0, 0.0) && p.State() == states[2000]
    ensures first == Tip(p.trig, old(p.Constants()), states[0])
    ensures p.maxHistoryLength == UnboundedHistoryLength
    ensures p.tipHistory == [first] + tips
    ensures p.time == Elapsed(2000, old(p.dt))
  {
    p.Reset();
    p.SetMaxHistoryLength(None);
    first := (p.x2, p.y2);
    ghost var h := p.tipHistory;
    states, tips := StepMany(p, 2000);
    UnboundedTrailKeepsAll(h, tips);
  }
}
