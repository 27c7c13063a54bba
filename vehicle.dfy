/** Longitudinal vehicle physics: the drag ODE for velocity under engine
    power, grade and aerodynamic drag, and one classical fourth-order
    Runge-Kutta step that advances velocity by the fixed step h. */
module Vehicles {

  /** Power bounds a new vehicle starts with [W]. */
  const DefaultMinPwr: real := 0.0
  const DefaultMaxPwr: real := 149000.0

  /** Aerodynamic drag power 1/2 rho v^3 A c_d of a body at velocity vel. */
  function DragPower(rho: real, area: real, cD: real, vel: real): real
  {
    0.5 * rho * (vel * vel * vel) * area * cD
  }

  /** With positive air density, frontal area and drag coefficient, a body
      moving forward loses power to drag. */
  lemma DragPowerPositive(rho: real, area: real, cD: real, vel: real)
    requires rho > 0.0 && area > 0.0 && cD > 0.0 && vel > 0.0
    ensures DragPower(rho, area, cD, vel) > 0.0
  {
    var cube := vel * vel * vel;
    assert vel * vel > 0.0;
    assert cube > 0.0;
    assert 0.5 * rho > 0.0;
    assert 0.5 * rho * cube > 0.0;
    assert 0.5 * rho * cube * area > 0.0;
  }

  class Vehicle {
    var t: real       // simulation time [s]
    var h: real       // physics step [s]
    var v: real       // velocity [m/s]
    var steps: nat    // physics steps taken
    var curPwr: real  // commanded engine power [W]
    var minPwr: real  // lowest power a controller may command [W]
    var maxPwr: real  // highest power a controller may command [W]
    var m: real       // mass [kg]
    var g: real       // gravitational acceleration [m/s^2]
    var A: real       // frontal area [m^2]
    var cD: real      // drag coefficient
    var rho: real     // air density [kg/m^3]

    /** A vehicle at velocity v0 integrated with step h0; every other field
        takes its default. */
    constructor (v0: real, h0: real)
      ensures v == v0 && h == h0
      ensures t == 0.0 && steps == 0
      ensures curPwr == 0.0 && minPwr == DefaultMinPwr && maxPwr == DefaultMaxPwr
      ensures m == 1542.0 && g == 9.81 && A == 2.0 && cD == 0.34 && rho == 1.2041
    {
      t, steps := 0.0, 0;
      curPwr, minPwr, maxPwr := 0.0, DefaultMinPwr, DefaultMaxPwr;
      m, g, A, cD, rho := 1542.0, 9.81, 2.0, 0.34, 1.2041;
      v, h := v0, h0;
    }

    /** Rate of change of road height: the terrain is flat. */
    function DhDt(time: real, vel: real): real
    {
      0.0
    }

    /** Acceleration under engine power, grade and drag.  Its meaning is the
        energy balance m v (dv/dt) = P - m g (dh/dt) - 1/2 rho v^3 A c_d. */
    function DvDt(time: real, vel: real): (r: real)
      reads this
      requires m != 0.0 && vel != 0.0
      ensures r * (m * vel) == curPwr - m * g * DhDt(time, vel) - DragPower(rho, A, cD, vel)
    {
      (curPwr - m * g * DhDt(time, vel) - DragPower(rho, A, cD, vel)) / (m * vel)
    }

    /** Acceleration with the engine off: grade and drag only.  Energy
        balance m v (dv/dt) = -m g (dh/dt) - 1/2 rho v^3 A c_d. */
    function DvDtNoPower(time: real, vel: real): (r: real)
      reads this
      requires m != 0.0 && vel != 0.0
      ensures r * (m * vel) == -m * g * DhDt(time, vel) - DragPower(rho, A, cD, vel)
    {
      (-m * g * DhDt(time, vel) - DragPower(rho, A, cD, vel)) / (m * vel)
    }

    /** Velocity at which the second RK4 stage is evaluated: half a step
        along the first stage's slope. */
    function Y2(time: real, vel: real): real
      reads this
      requires m != 0.0 && vel != 0.0
    {
      vel + h * 0.5 * DvDt(time, vel)
    }

    /** Velocity of the third stage: half a step along the second slope. */
    function Y3(time: real, vel: real): real
      reads this
      requires m != 0.0 && vel != 0.0 && Y2(time, vel) != 0.0
    {
      vel + h * 0.5 * DvDt(time + h * 0.5, Y2(time, vel))
    }

    /** Velocity of the fourth stage: a whole step along the third slope. */
    function Y4(time: real, vel: real): real
      reads this
      requires m != 0.0 && vel != 0.0 && Y2(time, vel) != 0.0 && Y3(time, vel) != 0.0
    {
      vel + h * DvDt(time + h * 0.5, Y3(time, vel))
    }

    /** Every RK4 stage from (time, vel) is evaluated at a nonzero velocity
        (and the mass is nonzero), so none of them divides by zero. */
    ghost predicate CanStepFrom(time: real, vel: real)
      reads this
    {
      m != 0.0 && vel != 0.0 && Y2(time, vel) != 0.0 && Y3(time, vel) != 0.0 && Y4(time, vel) != 0.0
    }

    /** Velocity after one classical RK4 step of size h from (time, vel). */
    function Rk4(time: real, vel: real): real
      reads this
      requires CanStepFrom(time, vel)
    {
      var k1 := DvDt(time, vel);
      var k2 := DvDt(time + h * 0.5, Y2(time, vel));
      var k3 := DvDt(time + h * 0.5, Y3(time, vel));
      var k4 := DvDt(time + h, Y4(time, vel));
      vel + h / 6.0 * (k1 + 2.0 * k2 + 2.0 * k3 + k4)
    }

    /** Advances velocity by one RK4 step.  The stages are evaluated at the
        current time; the time is then set to h times the number of steps
        taken BEFORE this one, so it lags the step count by one step. */
    method StepPhysics() returns (vNext: real)
      requires CanStepFrom(t, v)
      modifies this`t, this`steps, this`v
      ensures steps == old(steps) + 1
      ensures t == h * (old(steps) as real)
      ensures t == h * ((steps - 1) as real)
      ensures old(steps) == 0 ==> t == 0.0
      ensures v == old(Rk4(t, v))
      ensures vNext == v
    {
      var next := Rk4(t, v);
      t := h * (steps as real);
      steps := steps + 1;
      v := next;
      vNext := v;
    }
  }

  /** On flat terrain the acceleration does not depend on time. */
  lemma FlatTerrainTimeInvariant(veh: Vehicle, t1: real, t2: real, vel: real)
    requires veh.m != 0.0 && vel != 0.0
    ensures veh.DvDt(t1, vel) == veh.DvDt(t2, vel)
    ensures veh.DvDtNoPower(t1, vel) == veh.DvDtNoPower(t2, vel)
  {
  }

  /** The third stage's velocity does not depend on the time. */
  lemma Y3TimeInvariant(veh: Vehicle, t1: real, t2: real, vel: real)
    requires veh.m != 0.0 && vel != 0.0 && veh.Y2(t1, vel) != 0.0
    ensures veh.Y2(t1, vel) == veh.Y2(t2, vel)
    ensures veh.Y3(t1, vel) == veh.Y3(t2, vel)
  {
    FlatTerrainTimeInvariant(veh, t1, t2, vel);
    FlatTerrainTimeInvariant(veh, t1 + veh.h * 0.5, t2 + veh.h * 0.5, veh.Y2(t1, vel));
  }

  /** The fourth stage's velocity does not depend on the time. */
  lemma Y4TimeInvariant(veh: Vehicle, t1: real, t2: real, vel: real)
    requires veh.m != 0.0 && vel != 0.0 && veh.Y2(t1, vel) != 0.0 && veh.Y3(t1, vel) != 0.0
    ensures veh.Y2(t2, vel) != 0.0 && veh.Y3(t2, vel) != 0.0
    ensures veh.Y4(t1, vel) == veh.Y4(t2, vel)
  {
    Y3TimeInvariant(veh, t1, t2, vel);
    FlatTerrainTimeInvariant(veh, t1 + veh.h * 0.5, t2 + veh.h * 0.5, veh.Y3(t1, vel));
  }

  /** Hence an RK4 step gives the same velocity whatever time its stages
      are evaluated at: the lagging clock of StepPhysics does not change v. */
  lemma Rk4TimeInvariant(veh: Vehicle, t1: real, t2: real, vel: real)
    requires veh.CanStepFrom(t1, vel)
    ensures veh.CanStepFrom(t2, vel)
    ensures veh.Rk4(t1, vel) == veh.Rk4(t2, vel)
  {
    Y4TimeInvariant(veh, t1, t2, vel);
    Y3TimeInvariant(veh, t1, t2, vel);
    FlatTerrainTimeInvariant(veh, t1 + veh.h, t2 + veh.h, veh.Y4(t1, vel));
    assert veh.CanStepFrom(t2, vel);
    FlatTerrainTimeInvariant(veh, t1, t2, vel);
    FlatTerrainTimeInvariant(veh, t1 + veh.h * 0.5, t2 + veh.h * 0.5, veh.Y2(t1, vel));
    FlatTerrainTimeInvariant(veh, t1 + veh.h * 0.5, t2 + veh.h * 0.5, veh.Y3(t1, vel));
  }

  /** The engine's contribution to the acceleration is P / (m v); with the
      engine off both right-hand sides agree. */
  lemma PowerContribution(veh: Vehicle, time: real, vel: real)
    requires veh.m != 0.0 && vel != 0.0
    ensures veh.DvDt(time, vel) - veh.DvDtNoPower(time, vel) == veh.curPwr / (veh.m * vel)
    ensures veh.curPwr == 0.0 ==> veh.DvDtNoPower(time, vel) == veh.DvDt(time, vel)
  {
  }

  /** With physical constants positive, drag alone decelerates a vehicle
      moving forward on flat terrain. */
  lemma DragDecelerates(veh: Vehicle, time: real, vel: real)
    requires veh.m > 0.0 && veh.rho > 0.0 && veh.A > 0.0 && veh.cD > 0.0
    requires vel > 0.0
    ensures veh.DvDtNoPower(time, vel) < 0.0
  {
    DragPowerPositive(veh.rho, veh.A, veh.cD, vel);
    var r := veh.DvDtNoPower(time, vel);
    assert veh.m * vel > 0.0;
    assert r * (veh.m * vel) < 0.0;
  }

  /** With the engine off on flat terrain the slope is -(rho A c_d / 2m) y^2,
      negative at every nonzero velocity, forward or backward. */
  lemma DragOnlySlopeNegative(veh: Vehicle, time: real, y: real)
    requires veh.m > 0.0 && veh.rho > 0.0 && veh.A > 0.0 && veh.cD > 0.0
    requires veh.curPwr == 0.0 && y != 0.0
    ensures veh.DvDt(time, y) < 0.0
  {
    var k := veh.DvDt(time, y);
    var my := veh.m * y;
    assert k * my == -DragPower(veh.rho, veh.A, veh.cD, y);
    if y > 0.0 {
      DragPowerPositive(veh.rho, veh.A, veh.cD, y);
      assert my > 0.0;
      assert k * my < 0.0;
    } else {
      DragPowerPositive(veh.rho, veh.A, veh.cD, -y);
      assert DragPower(veh.rho, veh.A, veh.cD, y) == -DragPower(veh.rho, veh.A, veh.cD, -y);
      assert my < 0.0;
      assert k * my > 0.0;
    }
  }

  /** With the engine off, drag alone makes every RK4 step lower the
      velocity: each of the four stage slopes is negative. */
  lemma DragOnlyStepDecreases(veh: Vehicle, time: real, vel: real)
    requires veh.m > 0.0 && veh.rho > 0.0 && veh.A > 0.0 && veh.cD > 0.0
    requires veh.curPwr == 0.0 && veh.h > 0.0
    requires veh.CanStepFrom(time, vel)
    ensures veh.Rk4(time, vel) < vel
  {
    var h := veh.h;
    DragOnlySlopeNegative(veh, time, vel);
    DragOnlySlopeNegative(veh, time + h * 0.5, veh.Y2(time, vel));
    DragOnlySlopeNegative(veh, time + h * 0.5, veh.Y3(time, vel));
    DragOnlySlopeNegative(veh, time + h, veh.Y4(time, vel));
    var sum := veh.DvDt(time, vel) + 2.0 * veh.DvDt(time + h * 0.5, veh.Y2(time, vel))
             + 2.0 * veh.DvDt(time + h * 0.5, veh.Y3(time, vel)) + veh.DvDt(time + h, veh.Y4(time, vel));
    assert sum < 0.0;
    assert h / 6.0 > 0.0;
    assert h / 6.0 * sum < 0.0;
  }

  /** When the engine exactly balances drag at velocity vel, every RK4 stage
      is zero and a step leaves the velocity unchanged. */
  lemma EquilibriumFixedPoint(veh: Vehicle, time: real, vel: real)
    requires veh.m != 0.0 && vel != 0.0
    requires veh.curPwr == DragPower(veh.rho, veh.A, veh.cD, vel)
    ensures veh.DvDt(time, vel) == 0.0
    ensures veh.CanStepFrom(time, vel)
    ensures veh.Rk4(time, vel) == vel
  {
    forall s: real ensures veh.DvDt(s, vel) == 0.0 {
      var k := veh.DvDt(s, vel);
      assert k * (veh.m * vel) == 0.0;
      assert veh.m * vel != 0.0;
    }
  }
}
