/** A modified PID controller that regulates a vehicle's engine power so
    its velocity tracks a set point.  Two departures from textbook PID: the
    derivative term uses the velocity alone (so set-point jumps do not kick
    it), and the integral accumulates at a limited rate before its
    magnitude is clamped.  The command is clamped to the vehicle's power
    bounds and then rate-limited against the previous command. */
module PidControl {
  import opened Vehicles

  /** Gains and limiter constants of one controller. */
  datatype Tuning = Tuning(
    kP: real, kI: real, kD: real,
    minI: real, maxI: real,                // magnitude bounds of the integral
    minDeltaI: real, maxDeltaI: real,      // bounds on the error the integral accumulates per second
    minDeltaPwr: real, maxDeltaPwr: real)  // bounds on the power change per second [W/s]

  /** What a controller remembers between calls. */
  datatype Memory = Memory(prevV: real, prevPwr: real, intE: real)

  /** One call by the driver: the vehicle's velocity at that moment, the set
      point, and the time since the previous call. */
  datatype Tick = Tick(v: real, setPoint: real, dt: real)

  /** The tuning a new controller gets with gains kP, kI, kD. */
  function DefaultTuning(kP: real, kI: real, kD: real): Tuning
  {
    Tuning(kP, kI, kD, 0.0, 20.0, -0.18, 1.45, -28000.0, 28000.0)
  }

  /** A new controller's memory. */
  const InitialMemory: Memory := Memory(0.0, 0.0, 0.0)

  /** The error the integral accumulates this call: the error itself when
      it lies in [lo, hi], otherwise the bound it crosses (upper bound
      tested first). */
  function LimitedError(e: real, lo: real, hi: real): (r: real)
    ensures lo <= hi ==> lo <= r <= hi
    ensures lo <= e <= hi ==> r == e
    ensures e > hi ==> r == hi
    ensures e < lo && e <= hi ==> r == lo
  {
    if e > hi then hi else if e < lo then lo else e
  }

  /** Growth of the integral over dt before its magnitude is clamped. */
  function Increment(e: real, dt: real, lo: real, hi: real): real
  {
    dt * LimitedError(e, lo, hi)
  }

  /** For nonnegative dt the growth lies between dt lo and dt hi. */
  lemma IncrementWindow(e: real, dt: real, lo: real, hi: real)
    requires dt >= 0.0 && lo <= hi
    ensures dt * lo <= Increment(e, dt, lo, hi) <= dt * hi
  {
    var le := LimitedError(e, lo, hi);
    ScaleMonotone(lo, le, dt);
    ScaleMonotone(le, hi, dt);
  }

  /** An error inside the window accumulates unchanged. */
  lemma IncrementExact(e: real, dt: real, lo: real, hi: real)
    requires lo <= e <= hi
    ensures Increment(e, dt, lo, hi) == dt * e
  {
  }

  /** a <= b scaled by a nonnegative factor, on either side. */
  lemma ScaleMonotone(a: real, b: real, dt: real)
    requires a <= b && dt >= 0.0
    ensures dt * a <= dt * b && a * dt <= b * dt
  {
    assert dt * b - dt * a == dt * (b - a);
    assert a * dt == dt * a && b * dt == dt * b;
  }

  /** Magnitude clamp applied to the integral and to the power: the lower
      bound is applied first and the upper bound last, so the result never
      exceeds hi even when lo > hi. */
  function Bound(x: real, lo: real, hi: real): (r: real)
    ensures r <= hi
    ensures lo <= hi ==> lo <= r
    ensures lo <= x <= hi ==> r == x
    ensures lo > hi ==> r == hi
  {
    var y := if x < lo then lo else x;
    if y > hi then hi else y
  }

  /** Clamping never moves two values further apart. */
  lemma BoundNonExpansive(x1: real, x2: real, lo: real, hi: real)
    requires lo <= hi
    ensures x1 <= x2 ==> 0.0 <= Bound(x2, lo, hi) - Bound(x1, lo, hi) <= x2 - x1
  {
  }

  /** Rate limit of the command: the change x - prev is capped at hi, and
      then raised to lo, so the lower limit wins when lo > hi. */
  function RateLimit(x: real, prev: real, lo: real, hi: real): (r: real)
    ensures lo <= r - prev
    ensures lo <= hi ==> r - prev <= hi
    ensures lo <= x - prev <= hi ==> r == x
    ensures x - prev < lo ==> r == prev + lo
    ensures lo <= hi && x - prev > hi ==> r == prev + hi
    ensures lo <= 0.0 <= hi ==> x <= r <= prev || prev <= r <= x
  {
    var y := if x - prev > hi then prev + hi else x;
    if y - prev < lo then prev + lo else y
  }

  /** Derivative of the error estimated from the velocity alone: the
      backward difference of -v over dt.  The set point does not enter. */
  function ErrorRate(v: real, prevV: real, dt: real): (r: real)
    requires dt != 0.0
    ensures v == prevV ==> r == 0.0
  {
    -((v - prevV) / dt)
  }

  /** The error rate times dt is the velocity drop over the interval, so
      the error rate is the backward difference of e = setPoint - v for a
      fixed set point. */
  lemma ErrorRateDifference(v: real, prevV: real, dt: real, setPoint: real)
    requires dt != 0.0
    ensures ErrorRate(v, prevV, dt) * dt == prevV - v
    ensures ErrorRate(v, prevV, dt) * dt == (setPoint - v) - (setPoint - prevV)
  {
  }

  /** The integral after one call: rate-limited growth, then the magnitude
      clamp. */
  function Integrate(tun: Tuning, intE: real, e: real, dt: real): (r: real)
    ensures r <= tun.maxI
    ensures tun.minI <= tun.maxI ==> tun.minI <= r
  {
    Bound(intE + Increment(e, dt, tun.minDeltaI, tun.maxDeltaI), tun.minI, tun.maxI)
  }

  /** The raw PID command before any clamp. */
  function Command(tun: Tuning, e: real, intE: real, deDt: real): real
  {
    tun.kP * e + tun.kI * intE + tun.kD * deDt
  }

  /** One call of the controller on values: the memory afterwards, whose
      prevPwr is the power written to the vehicle. */
  function Control(tun: Tuning, mem: Memory, v: real, minPwr: real, maxPwr: real,
                   setPoint: real, dt: real): Memory
    requires dt != 0.0
  {
    var e := setPoint - v;
    var intE := Integrate(tun, mem.intE, e, dt);
    var pwr := Bound(Command(tun, e, intE, ErrorRate(v, mem.prevV, dt)), minPwr, maxPwr);
    Memory(v, RateLimit(pwr, mem.prevPwr, tun.minDeltaPwr * dt, tun.maxDeltaPwr * dt), intE)
  }

  /** One call remembers the velocity and leaves the integral inside its
      magnitude bounds. */
  lemma ControlIntegralBounds(tun: Tuning, mem: Memory, v: real, minPwr: real, maxPwr: real,
                              setPoint: real, dt: real)
    requires dt != 0.0
    ensures Control(tun, mem, v, minPwr, maxPwr, setPoint, dt).prevV == v
    ensures tun.minI <= tun.maxI ==> tun.minI <= Control(tun, mem, v, minPwr, maxPwr, setPoint, dt).intE <= tun.maxI
  {
    var intE := Integrate(tun, mem.intE, setPoint - v, dt);
    assert Control(tun, mem, v, minPwr, maxPwr, setPoint, dt).intE == intE;
  }

  /** One call lowers the command by at most -minDeltaPwr dt. */
  lemma ControlRateFloor(tun: Tuning, mem: Memory, v: real, minPwr: real, maxPwr: real,
                         setPoint: real, dt: real)
    requires dt != 0.0
    ensures tun.minDeltaPwr * dt <= Control(tun, mem, v, minPwr, maxPwr, setPoint, dt).prevPwr - mem.prevPwr
  {
    ControlUnfolds(tun, mem, v, minPwr, maxPwr, setPoint, dt);
  }

  /** For positive dt and an ordered window, one call raises the command
      by at most maxDeltaPwr dt. */
  lemma ControlRateCeiling(tun: Tuning, mem: Memory, v: real, minPwr: real, maxPwr: real,
                           setPoint: real, dt: real)
    requires dt > 0.0 && tun.minDeltaPwr <= tun.maxDeltaPwr
    ensures Control(tun, mem, v, minPwr, maxPwr, setPoint, dt).prevPwr - mem.prevPwr <= tun.maxDeltaPwr * dt
  {
    var pwr := Bound(Command(tun, setPoint - v, Integrate(tun, mem.intE, setPoint - v, dt),
                             ErrorRate(v, mem.prevV, dt)),
                     minPwr, maxPwr);
    RateCeilingScaled(pwr, mem.prevPwr, tun.minDeltaPwr, tun.maxDeltaPwr, dt);
    ControlUnfolds(tun, mem, v, minPwr, maxPwr, setPoint, dt);
  }

  /** The rate ceiling for a window given per unit time and scaled by a
      nonnegative dt. */
  lemma RateCeilingScaled(x: real, prev: real, minDelta: real, maxDelta: real, dt: real)
    requires dt >= 0.0 && minDelta <= maxDelta
    ensures RateLimit(x, prev, minDelta * dt, maxDelta * dt) - prev <= maxDelta * dt
  {
    var lo, hi := minDelta * dt, maxDelta * dt;
    assert hi - lo == (maxDelta - minDelta) * dt;
    assert (maxDelta - minDelta) * dt >= 0.0;
    var r := RateLimit(x, prev, lo, hi);
    assert r - prev <= hi;
  }

  /** When the power rate window contains zero and dt is positive, a
      previous command inside the power bounds is followed by one inside
      them. */
  lemma ControlPowerBounds(tun: Tuning, mem: Memory, v: real, minPwr: real, maxPwr: real,
                           setPoint: real, dt: real)
    requires dt > 0.0 && tun.minDeltaPwr <= 0.0 <= tun.maxDeltaPwr
    requires minPwr <= mem.prevPwr <= maxPwr
    ensures minPwr <= Control(tun, mem, v, minPwr, maxPwr, setPoint, dt).prevPwr <= maxPwr
  {
    ControlUnfolds(tun, mem, v, minPwr, maxPwr, setPoint, dt);
    ScaleMonotone(tun.minDeltaPwr, 0.0, dt);
    ScaleMonotone(0.0, tun.maxDeltaPwr, dt);
  }

  /** Successive calls of one controller on one vehicle, whose power bounds
      neither component changes. */
  function Run(tun: Tuning, mem: Memory, minPwr: real, maxPwr: real, ticks: seq<Tick>): (r: Memory)
    requires forall i :: 0 <= i < |ticks| ==> ticks[i].dt != 0.0
    ensures |ticks| > 0 ==> r.prevV == ticks[|ticks| - 1].v
    decreases |ticks|
  {
    if ticks == [] then mem
    else
      var k := ticks[0];
      Run(tun, Control(tun, mem, k.v, minPwr, maxPwr, k.setPoint, k.dt), minPwr, maxPwr, ticks[1..])
  }

  /** Once the previous command lies in the vehicle's power bounds it stays
      there over any number of calls with positive dt, provided the power
      rate window contains zero; the integral stays in its bounds too. */
  lemma {:induction false} RunStaysInBounds(tun: Tuning, mem: Memory, minPwr: real, maxPwr: real,
                                            ticks: seq<Tick>)
    requires forall i :: 0 <= i < |ticks| ==> ticks[i].dt > 0.0
    requires tun.minDeltaPwr <= 0.0 <= tun.maxDeltaPwr
    requires tun.minI <= tun.maxI
    requires minPwr <= mem.prevPwr <= maxPwr
    requires tun.minI <= mem.intE <= tun.maxI
    ensures minPwr <= Run(tun, mem, minPwr, maxPwr, ticks).prevPwr <= maxPwr
    ensures tun.minI <= Run(tun, mem, minPwr, maxPwr, ticks).intE <= tun.maxI
    decreases |ticks|
  {
    if ticks != [] {
      var k := ticks[0];
      var next := Control(tun, mem, k.v, minPwr, maxPwr, k.setPoint, k.dt);
      ControlIntegralBounds(tun, mem, k.v, minPwr, maxPwr, k.setPoint, k.dt);
      ControlPowerBounds(tun, mem, k.v, minPwr, maxPwr, k.setPoint, k.dt);
      RunStaysInBounds(tun, next, minPwr, maxPwr, ticks[1..]);
    }
  }

  /** From construction, with a vehicle's default power bounds, every
      command a controller writes lies in [0, 149000] and its integral in
      [0, 20]. */
  lemma DefaultsStayInBounds(kP: real, kI: real, kD: real, ticks: seq<Tick>)
    requires forall i :: 0 <= i < |ticks| ==> ticks[i].dt > 0.0
    ensures var r := Run(DefaultTuning(kP, kI, kD), InitialMemory, DefaultMinPwr, DefaultMaxPwr, ticks);
            0.0 <= r.prevPwr <= 149000.0 && 0.0 <= r.intE <= 20.0
  {
    RunStaysInBounds(DefaultTuning(kP, kI, kD), InitialMemory, DefaultMinPwr, DefaultMaxPwr, ticks);
  }

  /** When the error lies in the integral's rate window and the magnitude
      clamp does not fire, the integral accumulates as in canonical PID. */
  lemma CanonicalIntegral(tun: Tuning, mem: Memory, v: real, minPwr: real, maxPwr: real,
                          setPoint: real, dt: real)
    requires dt != 0.0
    requires tun.minDeltaI <= setPoint - v <= tun.maxDeltaI
    requires tun.minI <= mem.intE + dt * (setPoint - v) <= tun.maxI
    ensures Control(tun, mem, v, minPwr, maxPwr, setPoint, dt).intE == mem.intE + dt * (setPoint - v)
  {
    var e := setPoint - v;
    IncrementExact(e, dt, tun.minDeltaI, tun.maxDeltaI);
    assert Control(tun, mem, v, minPwr, maxPwr, setPoint, dt).intE == Integrate(tun, mem.intE, e, dt);
  }

  /** A command inside both the power bounds and the rate window passes
      the limiters unchanged. */
  lemma LimitersIdle(raw: real, prev: real, minPwr: real, maxPwr: real, lo: real, hi: real)
    requires minPwr <= raw <= maxPwr && lo <= raw - prev <= hi
    ensures RateLimit(Bound(raw, minPwr, maxPwr), prev, lo, hi) == raw
  {
  }

  /** When neither the power clamp nor the rate limit fires, the command
      written is exactly the PID sum, with the already clamped integral. */
  lemma UnclampedCommand(tun: Tuning, mem: Memory, v: real, minPwr: real, maxPwr: real,
                         setPoint: real, dt: real)
    requires dt != 0.0
    requires var raw := Command(tun, setPoint - v, Integrate(tun, mem.intE, setPoint - v, dt),
                                ErrorRate(v, mem.prevV, dt));
             minPwr <= raw <= maxPwr &&
             tun.minDeltaPwr * dt <= raw - mem.prevPwr <= tun.maxDeltaPwr * dt
    ensures Control(tun, mem, v, minPwr, maxPwr, setPoint, dt).prevPwr
            == Command(tun, setPoint - v, Control(tun, mem, v, minPwr, maxPwr, setPoint, dt).intE,
                       ErrorRate(v, mem.prevV, dt))
  {
    var e := setPoint - v;
    var d := ErrorRate(v, mem.prevV, dt);
    var intE := Integrate(tun, mem.intE, e, dt);
    var raw := Command(tun, e, intE, d);
    ControlUnfolds(tun, mem, v, minPwr, maxPwr, setPoint, dt);
    LimitersIdle(raw, mem.prevPwr, minPwr, maxPwr, tun.minDeltaPwr * dt, tun.maxDeltaPwr * dt);
  }

  /** Two increments in [lo, hi] added to the same integral and clamped
      end at most hi - lo apart. */
  lemma ClampedSpread(intE: real, inc1: real, inc2: real, lo: real, hi: real, minI: real, maxI: real)
    requires lo <= inc1 <= hi && lo <= inc2 <= hi && minI <= maxI
    ensures -(hi - lo) <= Bound(intE + inc1, minI, maxI) - Bound(intE + inc2, minI, maxI) <= hi - lo
  {
    if intE + inc1 <= intE + inc2 {
      BoundNonExpansive(intE + inc1, intE + inc2, minI, maxI);
    } else {
      BoundNonExpansive(intE + inc2, intE + inc1, minI, maxI);
    }
  }

  /** Two integral updates from the same integral differ by at most
      dt (hi - lo), whatever the two errors. */
  lemma IntegralSpread(intE: real, e1: real, e2: real, dt: real, lo: real, hi: real, minI: real, maxI: real)
    requires dt > 0.0 && lo <= hi && minI <= maxI
    ensures -(dt * hi - dt * lo)
            <= Bound(intE + Increment(e1, dt, lo, hi), minI, maxI) - Bound(intE + Increment(e2, dt, lo, hi), minI, maxI)
            <= dt * hi - dt * lo
  {
    IncrementWindow(e1, dt, lo, hi);
    IncrementWindow(e2, dt, lo, hi);
    ClampedSpread(intE, Increment(e1, dt, lo, hi), Increment(e2, dt, lo, hi), dt * lo, dt * hi, minI, maxI);
  }

  /** A set-point jump does not kick the derivative term: between two
      calls from the same memory and velocity that differ only in set
      point, the raw commands differ by kP times the jump plus kI times a
      difference of integrals that is at most dt (maxDeltaI - minDeltaI),
      with no term in 1/dt. */
  lemma SetPointJumpNoKick(tun: Tuning, mem: Memory, v: real, sp1: real, sp2: real, dt: real)
    requires dt > 0.0
    requires tun.minDeltaI <= tun.maxDeltaI && tun.minI <= tun.maxI
    ensures var d := ErrorRate(v, mem.prevV, dt);
            var i1 := Integrate(tun, mem.intE, sp1 - v, dt);
            var i2 := Integrate(tun, mem.intE, sp2 - v, dt);
            Command(tun, sp1 - v, i1, d) - Command(tun, sp2 - v, i2, d)
              == tun.kP * (sp1 - sp2) + tun.kI * (i1 - i2) &&
            -dt * (tun.maxDeltaI - tun.minDeltaI) <= i1 - i2 <= dt * (tun.maxDeltaI - tun.minDeltaI)
  {
    IntegralSpread(mem.intE, sp1 - v, sp2 - v, dt, tun.minDeltaI, tun.maxDeltaI, tun.minI, tun.maxI);
    assert dt * (tun.maxDeltaI - tun.minDeltaI) == dt * tun.maxDeltaI - dt * tun.minDeltaI;
  }

  /** The first call of a new controller (kP 5000, kI 200, kD 1000) on a
      vehicle at 20 m/s with set point 25 m/s and dt 0.1 s: the error 5
      exceeds the integral's rate window, so the integral grows by 0.145;
      the velocity jump from the initial 0 gives an error rate of -200, the
      raw command -174971 W is clamped to the vehicle's minimum 0. */
  lemma FirstCallScenario()
    ensures Control(DefaultTuning(5000.0, 200.0, 1000.0), InitialMemory, 20.0,
                    DefaultMinPwr, DefaultMaxPwr, 25.0, 0.1)
            == Memory(20.0, 0.0, 0.145)
  {
    assert ErrorRate(20.0, 0.0, 0.1) == -200.0;
  }

  /** Control written out stage by stage.  A proof helper: handing the
      stages to the solver as equations keeps the proofs of StepControl and
      of the rate and power lemmas small and fast. */
  lemma ControlUnfolds(tun: Tuning, mem: Memory, v: real, minPwr: real, maxPwr: real,
                       setPoint: real, dt: real)
    requires dt != 0.0
    ensures Control(tun, mem, v, minPwr, maxPwr, setPoint, dt).prevV == v
    ensures Control(tun, mem, v, minPwr, maxPwr, setPoint, dt).intE == Integrate(tun, mem.intE, setPoint - v, dt)
    ensures Control(tun, mem, v, minPwr, maxPwr, setPoint, dt).prevPwr
            == RateLimit(Bound(Command(tun, setPoint - v, Integrate(tun, mem.intE, setPoint - v, dt),
                                       ErrorRate(v, mem.prevV, dt)),
                               minPwr, maxPwr),
                         mem.prevPwr, tun.minDeltaPwr * dt, tun.maxDeltaPwr * dt)
  {
    var intE := Integrate(tun, mem.intE, setPoint - v, dt);
    var pwr := Bound(Command(tun, setPoint - v, intE, ErrorRate(v, mem.prevV, dt)), minPwr, maxPwr);
    var lo, hi := tun.minDeltaPwr * dt, tun.maxDeltaPwr * dt;
    assert Control(tun, mem, v, minPwr, maxPwr, setPoint, dt) == Memory(v, RateLimit(pwr, mem.prevPwr, lo, hi), intE);
  }

  /** The integral update of one call, step by step: rate-limited growth
      (upper bound tested first), then the lower and the upper magnitude
      clamp. */
  method AccumulateIntegral(tun: Tuning, intE: real, e: real, dt: real) returns (integral: real)
    ensures integral == Integrate(tun, intE, e, dt)
  {
    ghost var le := LimitedError(e, tun.minDeltaI, tun.maxDeltaI);
    integral := intE;
    if e > tun.maxDeltaI {
      assert le == tun.maxDeltaI;
      integral := integral + dt * tun.maxDeltaI;
    } else if e < tun.minDeltaI {
      assert le == tun.minDeltaI;
      integral := integral + dt * tun.minDeltaI;
    } else {
      assert le == e;
      integral := integral + dt * e;
    }
    assert integral == intE + dt * le;
    if integral < tun.minI {
      integral := tun.minI;
    }
    if integral > tun.maxI {
      integral := tun.maxI;
    }
  }

  /** The command limiters of one call, step by step: the lower and the
      upper power clamp, then the upper and the lower rate clamp against
      the previous command. */
  method LimitCommand(tun: Tuning, raw: real, prevPwr: real, minPwr: real, maxPwr: real, dt: real)
    returns (pwr: real)
    ensures pwr == RateLimit(Bound(raw, minPwr, maxPwr), prevPwr, tun.minDeltaPwr * dt, tun.maxDeltaPwr * dt)
  {
    pwr := raw;
    if pwr < minPwr {
      pwr := minPwr;
    }
    if pwr > maxPwr {
      pwr := maxPwr;
    }
    if pwr - prevPwr > tun.maxDeltaPwr * dt {
      pwr := prevPwr + tun.maxDeltaPwr * dt;
    }
    if pwr - prevPwr < tun.minDeltaPwr * dt {
      pwr := prevPwr + tun.minDeltaPwr * dt;
    }
  }

  /** The controller object: gains, limiter constants and memory. */
  class Pid {
    var prevV: real
    var prevPwr: real
    var intE: real
    var kP: real
    var kI: real
    var kD: real
    var minI: real
    var maxI: real
    var minDeltaI: real
    var maxDeltaI: real
    var minDeltaPwr: real
    var maxDeltaPwr: real

    function CurrentTuning(): Tuning
      reads this
    {
      Tuning(kP, kI, kD, minI, maxI, minDeltaI, maxDeltaI, minDeltaPwr, maxDeltaPwr)
    }

    function CurrentMemory(): Memory
      reads this
    {
      Memory(prevV, prevPwr, intE)
    }

    /** A controller with the given gains, default limiters and empty memory. */
    constructor (kP: real, kI: real, kD: real)
      ensures CurrentTuning() == DefaultTuning(kP, kI, kD)
      ensures CurrentMemory() == InitialMemory
    {
      this.kP, this.kI, this.kD := kP, kI, kD;
      prevV, prevPwr, intE := 0.0, 0.0, 0.0;
      minI, maxI := 0.0, 20.0;
      minDeltaI, maxDeltaI := -0.18, 1.45;
      minDeltaPwr, maxDeltaPwr := -28000.0, 28000.0;
    }

    /** One control step: reads the vehicle's velocity and power bounds,
        updates the memory and writes the new command into the vehicle. */
    method StepControl(veh: Vehicle, setPoint: real, dt: real)
      requires dt != 0.0
      modifies this`prevV, this`intE, this`prevPwr, veh`curPwr
      ensures CurrentMemory()
              == Control(CurrentTuning(), old(CurrentMemory()), veh.v, veh.minPwr, veh.maxPwr, setPoint, dt)
      ensures veh.curPwr == prevPwr
      ensures prevV == veh.v
    {
      var tun := CurrentTuning();
      ghost var mem := CurrentMemory();
      var v, minPwr, maxPwr := veh.v, veh.minPwr, veh.maxPwr;
      var e := setPoint - v;

      var dvDt := (v - prevV) / dt;
      prevV := v;
      var deDt := -dvDt;
      assert deDt == ErrorRate(v, mem.prevV, dt);

      intE := AccumulateIntegral(tun, intE, e, dt);

      var raw := kP * e + kI * intE + kD * deDt;
      assert raw == Command(tun, e, intE, deDt);
      var pwr := LimitCommand(tun, raw, prevPwr, minPwr, maxPwr, dt);
      ControlUnfolds(tun, mem, v, minPwr, maxPwr, setPoint, dt);

      veh.curPwr := pwr;
      prevPwr := pwr;
      assert CurrentTuning() == tun;
    }
  }
}
