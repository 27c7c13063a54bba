# PyCruiseControl in Dafny

A model of the two components of PyCruiseControl, a cruise-control
simulation:

- `vehicle.dfy`, module `Vehicles`: the `Vehicle` class. Its fields are time, step, velocity, step count, commanded power, power bounds and the physical constants. It also has:
  - the drag ODE right-hand sides `DvDt` and `DvDtNoPower`;
  - the flat-terrain grade `DhDt`;
  - the RK4 propagator `StepPhysics`. This method advances `t`, `steps` and `v` in place. The four RK4 stages are computed by the function `Rk4`, which the method calls and which the lemmas reason about.
- `pid.dfy`, module `PidControl`: the modified PID controller `Pid`. Its fields are its gains, its limiter constants and its memory (`prevV`, `prevPwr`, `intE`). `Pid.StepControl` reads the vehicle's velocity and power bounds, updates the memory in place and writes the new command into the vehicle's `curPwr`.
  - The method is proved equal to the value-level function `Control`. Its stages are `ErrorRate`, `Integrate` (rate-limited growth, then the magnitude clamp), `Command`, `Bound` (power clamp) and `RateLimit`.
  - Two step-by-step methods, `AccumulateIntegral` and `LimitCommand`, run the source's `if` chains. They are proved equal to the stage functions.
  - `Run` folds `Control` over a sequence of driver calls (`Tick`s). It exists to state the inductive claim that the command stays inside the power bounds.

Every clamp keeps the source's order of tests. This fixes which bound wins when a window is empty:
- the integral's rate window tests the upper bound first;
- the magnitude and power clamps apply the lower bound first, so the upper bound wins;
- the rate limit applies the upper limit first, so the lower limit wins.

Python floats are modelled as `real`. Where the source would divide by zero, the model uses a precondition:
- `dt != 0` for the controller;
- a nonzero mass and nonzero stage velocities (`CanStepFrom`) for the physics.

Time and the step count: `stepPhysics` assigns `t = h * steps` before it increments `steps`. So after a step `t == h * (steps - 1)`, not `t == steps * h` as a reader of the class might expect, and `t` is still 0 after the first step. The model follows the code. On flat terrain this lag does not affect the velocity: an RK4 step gives the same result whatever time its stages are evaluated at (`Rk4TimeInvariant`).

## Model

| member | source | states |
|---|---|---|
| Vehicles.Vehicle.constructor | PyVehicle.py:17-33 | a new vehicle has the given v and h, t = 0, no steps, zero power, power bounds [0, 149000], and the default mass, g, area, c_d and rho |
| Vehicles.Vehicle.DvDt | PyVehicle.py:47-48 | the acceleration satisfies the energy balance m v (dv/dt) = P - m g (dh/dt) - 1/2 rho v^3 A c_d |
| Vehicles.Vehicle.DvDtNoPower | PyVehicle.py:51-52 | the same energy balance with the engine term removed |
| Vehicles.Vehicle.StepPhysics | PyVehicle.py:55-63 | steps grows by one; t becomes h times the old step count (so t = h (steps - 1), and 0 after the first step); v becomes the RK4 update from the old (t, v); the return value is the new v; only t, steps and v change |
| Vehicles.DragPower | PyVehicle.py:48 | definition of the drag term 1/2 rho v^3 A c_d shared by both right-hand sides; reasoned about by DragPowerPositive, DragOnlySlopeNegative and EquilibriumFixedPoint |
| Vehicles.Vehicle.DhDt | PyVehicle.py:36-37 | definition: the road is flat, the grade rate is 0 at every time and velocity; FlatTerrainTimeInvariant and the RK4 time-invariance lemmas rest on it |
| Vehicles.Vehicle.Y2 | PyVehicle.py:57 | definition of the second stage's velocity, v + h/2 k_1; reasoned about by Y3TimeInvariant and DragOnlyStepDecreases |
| Vehicles.Vehicle.Y3 | PyVehicle.py:58 | definition of the third stage's velocity, v + h/2 k_2; reasoned about by Y3TimeInvariant and DragOnlyStepDecreases |
| Vehicles.Vehicle.Y4 | PyVehicle.py:59 | definition of the fourth stage's velocity, v + h k_3; reasoned about by Y4TimeInvariant and DragOnlyStepDecreases |
| Vehicles.Vehicle.Rk4 | PyVehicle.py:56-62 | definition of the RK4 update v + h/6 (k_1 + 2 k_2 + 2 k_3 + k_4) from the old (t, v); StepPhysics is proved to write it, and Rk4TimeInvariant, EquilibriumFixedPoint and DragOnlyStepDecreases reason about it |
| Vehicles.DragPowerPositive | PyVehicle.py:48 | with positive rho, A, c_d and v, the drag power 1/2 rho v^3 A c_d is positive |
| Vehicles.FlatTerrainTimeInvariant | PyVehicle.py:36-37 | since dh/dt is 0, both right-hand sides give the same value at any two times |
| Vehicles.Rk4TimeInvariant | PyVehicle.py:56-59 | an RK4 step from a velocity is defined, and gives the same velocity, at any start time |
| Vehicles.Y3TimeInvariant | PyVehicle.py:57-58 | on flat terrain the second and third stage velocities do not depend on the start time |
| Vehicles.Y4TimeInvariant | PyVehicle.py:57-59 | on flat terrain the fourth stage velocity does not depend on the start time, and the earlier stages stay defined |
| Vehicles.PowerContribution | PyVehicle.py:47-52 | dv_dt - dv_dt_nopower = P / (m v); the two agree when the power is 0 |
| Vehicles.DragDecelerates | PyVehicle.py:51-52 | on flat terrain, with positive constants and v > 0, drag alone decelerates: dv_dt_nopower < 0 |
| Vehicles.DragOnlySlopeNegative | PyVehicle.py:47-48 | with the engine off (cur_pwr = 0) on flat terrain and positive constants, dv_dt is negative at every nonzero velocity, forward or backward |
| Vehicles.DragOnlyStepDecreases | PyVehicle.py:55-62 | with the engine off, h > 0 and every stage defined, one RK4 step strictly lowers the velocity; with StepPhysics' ensures v == old(Rk4(t, v)), each call of stepPhysics while coasting lowers v |
| Vehicles.EquilibriumFixedPoint | PyVehicle.py:47-62 | when the power equals the drag power at v, the slope is 0, every stage is defined and an RK4 step leaves v unchanged |
| PidControl.Pid.constructor | PyPID.py:16-45 | a new controller has the given gains, integral bounds [0, 20], integral rate window [-0.18, 1.45], power rate window [-28000, 28000] and zero memory |
| PidControl.Pid.StepControl | PyPID.py:47-100 | the new memory is Control applied to the old memory and the vehicle's velocity and power bounds; the vehicle's curPwr equals the new prevPwr; prevV becomes the vehicle's velocity; nothing else changes |
| PidControl.AccumulateIntegral | PyPID.py:69-87 | the step-by-step integral update (rate-limited growth, then the lower and upper clamp) equals Integrate |
| PidControl.LimitCommand | PyPID.py:90-98 | the step-by-step power clamps and rate clamps equal RateLimit applied to Bound of the raw command |
| PidControl.Control | PyPID.py:47-100 | definition of one controller call on values (error, derivative term, rate-limited and clamped integral, raw command, power clamp, rate limit); StepControl is proved to write it, and FirstCallScenario, ControlIntegralBounds, ControlRateFloor, ControlRateCeiling, ControlPowerBounds, UnclampedCommand, CanonicalIntegral, SetPointJumpNoKick and RunStaysInBounds reason about it |
| PidControl.LimitedError | PyPID.py:69-74 | the error the integral accumulates lies in [lo, hi] when that window is ordered; it is the error itself inside the window, hi above it, and lo below it |
| PidControl.Increment | PyPID.py:69-74 | definition of the integral's growth before the clamp, dt times the rate-limited error; reasoned about by IncrementWindow, IncrementExact and IntegralSpread |
| PidControl.IncrementWindow | PyPID.py:69-74 | for dt >= 0 the integral's growth before the clamp lies in [dt min_delta_I, dt max_delta_I] |
| PidControl.IncrementExact | PyPID.py:73-74 | an error inside the rate window adds exactly dt e |
| PidControl.Bound | PyPID.py:84-87 | the clamp never exceeds hi; it is at least lo when lo <= hi; it leaves a value already in range unchanged; hi wins when lo > hi |
| PidControl.BoundNonExpansive | PyPID.py:84-87 | clamping never moves two values further apart |
| PidControl.RateLimit | PyPID.py:95-98 | the change from prev is at least lo and, when lo <= hi, at most hi; a change already in the window is kept; a change below the window snaps to prev + lo, and (for lo <= hi) a change above it snaps to prev + hi; with 0 in the window the result lies between the input and prev |
| PidControl.Command | PyPID.py:89 | definition of the raw command K_P e + K_I int_e + K_D de_dt; reasoned about by UnclampedCommand and SetPointJumpNoKick |
| PidControl.ErrorRate | PyPID.py:50-52 | the derivative term is 0 when the velocity has not changed; the set point is not an argument |
| PidControl.ErrorRateDifference | PyPID.py:50-59 | de_dt times dt is the drop in velocity, which is the change in e for a fixed set point |
| PidControl.Integrate | PyPID.py:69-87 | the integral after a call never exceeds max_I, and is at least min_I when min_I <= max_I |
| PidControl.ControlIntegralBounds | PyPID.py:84-87 | after a call, prevV is the velocity just read and the integral lies in [min_I, max_I] |
| PidControl.ControlRateFloor | PyPID.py:97-98 | the command never falls by more than -min_delta_pwr dt from the previous command |
| PidControl.ControlRateCeiling | PyPID.py:95-96 | for dt > 0 and an ordered window, the command never rises by more than max_delta_pwr dt |
| PidControl.RateCeilingScaled | PyPID.py:95-98 | with a per-second window [min_delta_pwr, max_delta_pwr] that is ordered and scaled by dt >= 0, the rate-limited change never exceeds max_delta_pwr dt |
| PidControl.ControlPowerBounds | PyPID.py:90-98 | for dt > 0 and a rate window containing 0, a previous command inside the vehicle's power bounds is followed by one inside them |
| PidControl.Run | PyPID.py:51 | after a non-empty sequence of calls, prevV is the velocity of the last call |
| PidControl.RunStaysInBounds | PyPID.py:90-98 | over any number of calls with dt > 0, the command stays in the power bounds and the integral stays in its bounds, once both start there |
| PidControl.DefaultsStayInBounds | PyPID.py:20-40 | from construction with the default limits and the vehicle's default power bounds, every command lies in [0, 149000] and the integral in [0, 20] |
| PidControl.CanonicalIntegral | PyPID.py:73-87 | when the error is inside the rate window and no magnitude clamp fires, the integral grows by exactly dt e (canonical PID) |
| PidControl.LimitersIdle | PyPID.py:90-98 | a command inside the power bounds and the rate window passes both limiters unchanged |
| PidControl.UnclampedCommand | PyPID.py:89-98 | when no power clamp or rate clamp fires, the command written is K_P e + K_I int_e + K_D de_dt, with the already clamped integral |
| PidControl.ClampedSpread | PyPID.py:84-87 | two increments in [lo, hi] added to the same integral and clamped end at most hi - lo apart |
| PidControl.IntegralSpread | PyPID.py:69-87 | two integral updates from the same integral differ by at most dt (max_delta_I - min_delta_I), whatever the errors |
| PidControl.SetPointJumpNoKick | PyPID.py:50-59 | two calls that differ only in set point share the derivative term; their raw commands differ by K_P times the jump plus K_I times a bounded integral difference, with no 1/dt term |
| PidControl.FirstCallScenario | PyPID.py:47-100 | first call of a new controller (gains 5000, 200, 1000), v = 20, set point 25, dt = 0.1: the integral becomes 0.145, the command is clamped to 0, and prevV becomes 20 |

## Left out

- Floating point: rounding, NaN and infinities are not modelled. All quantities are `real`, and each division by zero becomes a precondition.
- The hill profile `0.05*sin(t/5)` (PyVehicle.py:38) is not modelled: it is commented out and transcendental. `DhDt` is the active flat terrain.
- The alternative drag coefficient (PyVehicle.py:28) is not modelled: it is commented out.
- Python class attributes shared between instances are not modelled. Each object gets ordinary fields initialised to the class defaults.
- RK4 accuracy and convergence are not modelled. Those are claims about analytic numerics, not about the code's discrete behaviour.
- Velocity staying positive over many steps is not modelled: the code does not guarantee it. Each step requires nonzero stage velocities (`CanStepFrom`).
- Python 2 integer arithmetic is not modelled: every input (velocities, set point, dt, gains) is taken to be a float. With int arguments, `(veh.v - this.prev_v) / dt` at PyPID.py:50 would be floor division, while the model divides reals.
- The simulation driver, scenario setup and output are not part of this model.
- The units in the source comments (kW against values in W) have no effect and are not modelled.
- PidControl.Pid.StepControl: its ensures ties the new memory to `Control` and does not repeat the bounds. The integral bounds, the rate window and the power bounds are proved about `Control` by `ControlIntegralBounds`, `ControlRateFloor`, `ControlRateCeiling` and `ControlPowerBounds`, and over many calls by `RunStaysInBounds`.
