# Double pendulum simulator — verified model

This project models the `DoublePendulum` class of the double pendulum
simulator in Dafny. The object holds:

- the angular state `theta1`, `theta2`, `omega1`, `omega2`;
- the physical constants: the two arm lengths, the two bob masses and gravity;
- the integration step `dt` and the simulated `time`;
- the Cartesian bob positions `x1`, `y1`, `x2`, `y2`;
- the trail of tip positions, with its cap.

`step` advances the state by one fourth-order Runge-Kutta step. It writes the
new angles back, recomputes the bob positions, appends the new tip to the
trail (dropping the oldest points beyond the cap) and advances the clock.
`reset` zeroes the velocities and the clock and starts a new trail.
`set_max_history_length` clamps the cap to at least 10 points, or sets 1000000
for "unbounded".

The project has four modules:

- `Wrappers`: the `Option` type used for the arguments that may be `None`.
- `Trail`: the bounded trail update on sequences of any element type. It
  includes `Newest` (the last `cap` elements), `Append` (one append followed by
  truncation) and `AppendAll` (a run of appends), with their lemmas.
- `Dynamics`: the state vector, the bob positions and the equations of motion,
  as pure functions over `real`. It also holds the Runge-Kutta combination,
  both as a function of an arbitrary vector field and in its lemmas.
  `sin` and `cos` are a `Trig` value handed in by the caller and stay
  uninterpreted.
- `Pendulum`: the class `DoublePendulum`. Its fields and methods mirror the
  Python object; each method states its whole new state in terms of the
  functions of `Trail` and `Dynamics`.

The cap bound `|tipHistory| <= maxHistoryLength` is deliberately NOT an object
invariant. `set_max_history_length` lowers the cap without trimming the stored
trail, so the bound is re-established by the next append, not at all times.
The model follows the code here: `UpdatePositions`, `Step` and `Reset` ensure
the bound, while `SetMaxHistoryLength` does not.

## Model

| member | source | states |
|---|---|---|
| Trail.Newest | double_pendulum.py:76-77 | the `[-cap:]` slice for a positive cap: the result has min(length, cap) entries |
| Trail.NewestIsSuffix | double_pendulum.py:76-77 | the slice keeps a suffix of the list: exactly its newest min(length, cap) entries, in order |
| Trail.Append | double_pendulum.py:72-77 | one append of the tip followed by the slice when the list is longer than the cap; its properties are the next two rows |
| Trail.AppendBounded | double_pendulum.py:72-77 | after appending and truncating, the trail has min(old length + 1, cap) entries (so never more than the cap) and its last entry is the new point |
| Trail.AppendDropsOnlyOldest | double_pendulum.py:72-77 | below the cap the append keeps every old entry and adds the point; at or above the cap the result is exactly the newest cap-1 old entries in their original order followed by the new point |
| Trail.NewestAbsorbs | double_pendulum.py:76-77 | truncating early and appending more, then truncating again, keeps the same entries as one truncation of everything |
| Trail.AppendAll | double_pendulum.py:72-77 | the trail after the points are appended one by one, in order, each append followed by the cap; its properties are the next three rows |
| Trail.AppendAllKeepsNewest | double_pendulum.py:72-77 | any run of appends leaves exactly the newest cap entries of the old trail followed by the new points, with length min(total, cap) |
| Trail.AppendAllSnoc | double_pendulum.py:72-77 | a run of appends followed by one more append is the longer run: the trail after each further step is the bounded append of its tip |
| Trail.AppendAllWithinCap | double_pendulum.py:72-77 | while the total stays within the cap, a run of appends drops nothing |
| Dynamics.Positions | double_pendulum.py:62-70 | the bob positions the angles determine, with the pivot at the origin and y pointing up; its partners are Dynamics.RigidArms and Dynamics.HangsStraightDownAtRest |
| Dynamics.RigidArms | double_pendulum.py:64-70 | where sin^2 + cos^2 = 1 at both angles, the first bob is at distance l1 from the pivot and the second at distance l2 from the first, at every angle |
| Dynamics.HangsStraightDownAtRest | double_pendulum.py:64-70 | with sin(0) = 0 and cos(0) = 1, the rest angles put both bobs straight below the pivot, at depths l1 and l1 + l2 |
| Dynamics.Denominator | double_pendulum.py:99-100 | the common denominator 2*m1 + m2 - m2*cos(2*(theta1 - theta2)) of both accelerations |
| Dynamics.DenominatorAtLeast2M1 | double_pendulum.py:99-100 | with the cosine of 2*(theta1 - theta2) in [-1, 1] and a non-negative second mass, the denominator is at least 2*m1 |
| Dynamics.FiniteForPhysicalPendulum | double_pendulum.py:99-110 | for a positive first mass, non-negative second mass and arms of nonzero length (cosine in [-1, 1]), neither acceleration divides by zero at any state |
| Dynamics.Derivatives | double_pendulum.py:79-112 | the first two derivative components are the input angular velocities omega1 and omega2 |
| Dynamics.Combine | double_pendulum.py:132 | y + (k1 + 2*k2 + 2*k3 + k4)/6 |
| Dynamics.Rk4 | double_pendulum.py:123-132 | the four stages at y, y + k1/2, y + k2/2 and y + k3, each scaled by dt, then combined; its partners are the two lemmas below |
| Dynamics.Rk4StaysWhereFieldVanishes | double_pendulum.py:123-132 | where the vector field is zero at y, all four stages vanish and the Runge-Kutta step returns y unchanged |
| Dynamics.Rk4ExactForConstantField | double_pendulum.py:123-132 | for a constant field c the weights 1/6, 2/6, 2/6, 1/6 sum to one: the step is y + dt*c |
| Dynamics.RestIsEquilibrium | double_pendulum.py:99-112 | with sin(0) = 0 and nonzero denominators, both angular accelerations vanish at the rest state (all angles and velocities zero) |
| Dynamics.RestIsFixedPoint | double_pendulum.py:99-132 | under the same conditions, a Runge-Kutta step of any size from the rest state stays at the rest state |
| Dynamics.StepFromRestStays | double_pendulum.py:99-132 | the same fact for a state already known to be such a step, so that callers need not unfold the step |
| Pendulum.ClampCap | double_pendulum.py:224-235 | None gives 1000000; n gives max(10, n); the cap is always at least 10 |
| Pendulum.ClampCapIdempotent | double_pendulum.py:224-235 | setting a cap that came out of the clamp leaves it as it is |
| Pendulum.ClampedTrailKeepsTenNewest | double_pendulum.py:72-77 | a requested cap of 5 is clamped to 10, and 50 further appends leave exactly the last 10 points in order |
| Pendulum.UnboundedTrailKeepsAll | double_pendulum.py:72-77 | with the unbounded cap, a one-point trail followed by 2000 appends keeps all 2001 points |
| Pendulum.DoublePendulum.constructor | double_pendulum.py:12-60 | every argument has the source's default, taken as the exact value of the double the source uses (`HalfPi` for the angles, `DefaultGravity`, `DefaultDt`); the angular state and constants are those given; time is 0; the cap is 1000; the trail is exactly the initial tip; the positions agree with the angles |
| Pendulum.DoublePendulum.UpdatePositions | double_pendulum.py:62-77 | the positions are recomputed from the angles; the trail becomes the bounded append of the new tip, whose last entry is (x2, y2) and whose length is at most the cap |
| Pendulum.DoublePendulum.ComputeDerivativesVec | double_pendulum.py:146-171 | returns the equations of motion evaluated at the given state; theta1, theta2, omega1 and omega2 end as they were on entry |
| Pendulum.DoublePendulum.RungeKutta | double_pendulum.py:120-132 | the four stages combine to the Runge-Kutta step of size h from the entry state, and the live angular state is restored |
| Pendulum.DoublePendulum.Step | double_pendulum.py:114-144 | the new angular state is the Runge-Kutta step of size dt; time grows by exactly dt; exactly one tip is appended under the cap; constants, dt and the cap are unchanged; the object invariant is kept |
| Pendulum.DoublePendulum.Reset | double_pendulum.py:173-195 | each angle changes only when given; the velocities and time become 0; the trail is the single current tip; constants, dt and the cap are unchanged |
| Pendulum.DoublePendulum.TakeAngles | double_pendulum.py:181-184 | each angle is replaced only when its argument is given, and kept otherwise |
| Pendulum.DoublePendulum.GetPositions | double_pendulum.py:197-204 | the returned positions are those the current angles determine |
| Pendulum.DoublePendulum.GetTipHistory | double_pendulum.py:206-213 | returns the trail, which is never empty and ends at the current tip |
| Pendulum.DoublePendulum.GetTime | double_pendulum.py:215-222 | returns the simulated time |
| Pendulum.DoublePendulum.SetMaxHistoryLength | double_pendulum.py:224-235 | the cap becomes the clamped value; the trail is not touched, and the object invariant (cap at least 10) is kept |
| Pendulum.Elapsed | double_pendulum.py:144 | the clock after n increments of d, summed as the object sums it, equals n*d in exact arithmetic |
| Pendulum.StepAtRest | double_pendulum.py:114-144 | stepping a valid pendulum at rest (sin(0) = 0, nonzero denominators) leaves it at rest and valid |
| Pendulum.Tip | double_pendulum.py:69-70 | the position of the second bob for a given state |
| Pendulum.Orbit | double_pendulum.py:114-144 | a sequence of states, each the Runge-Kutta step of the one before, with the tip after each step |
| Pendulum.Extend | double_pendulum.py:114-144 | one more step and its tip extend such a run |
| Pendulum.StepMany | double_pendulum.py:114-144 | n steps in a row: the states visited are the Runge-Kutta run from the starting state, ending at the current state; the trail is the old one with the tip after each step appended in order under the cap, time grows by n steps of dt, and the constants, dt and the cap are unchanged |
| Pendulum.FiftyStepsUnderCapFive | double_pendulum.py:224-235 | after asking for a 5-point trail and stepping 50 times, the cap is 10 and the trail is exactly the tips after steps 41 to 50, in order, where the steps are the Runge-Kutta run from the starting state |
| Pendulum.UnboundedAfterReset | double_pendulum.py:173-195 | after a reset and the unbounded cap (1000000), the run of 2000 Runge-Kutta steps starts at the old angles with zero velocities; the trail is the reset tip followed by the tip after every step, in order; the clock shows 2000 steps |

## Left out

- The browser front end (app.py) is not part of this model. It draws on the canvas, schedules animation frames and wires event listeners over global state. It calls `step()` once per frame and does not temporarily adjust `dt` to catch up with the wall clock.
- Floating point is not modelled: every quantity is an exact `real`. numpy's infinite or NaN result of a division by zero is modelled by `Dynamics.Quot` returning 0. The lemmas that depend on the accelerations ask for nonzero denominators (`Dynamics.Finite`).
- `sin` and `cos` are uninterpreted functions supplied in a `Trig` value. The only properties assumed of them are stated in the lemmas that need them: `sin(0) = 0` by the rest-state lemmas, `cos(0) = 1` by `Dynamics.HangsStraightDownAtRest`, cosine within [-1, 1] by `Dynamics.DenominatorAtLeast2M1` and `Dynamics.FiniteForPhysicalPendulum`, and sin^2 + cos^2 = 1 by `Dynamics.RigidArms`. No energy, trajectory or other trigonometric claim is made.
- numpy array mechanics are replaced by the `Vec4` datatype, and the tuples returned by the derivative routines by the same datatype.
- Python's dynamic typing is not modelled: the cap argument is an integer or `None`, and the angles given to `reset` are reals or `None`.
- The returned trail is a value in the model; the Python getter returns the live list, so a caller could alias and mutate it.
