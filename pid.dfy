/**
 * The scalar PID controller of the yaw axis (Brain_Code/pid.py): an
 * integrator clamped into [min, max] (anti-windup), an output clamped into
 * the same interval, and an explicit disabled branch that forces the output
 * to zero without touching the accumulators. The clock reading that `_loop`
 * takes from `time.perf_counter()` is a parameter.
 */
module Pid {
  import opened Numeric

  /** The gains read from the configuration dictionary. */
  datatype Gains = Gains(kp: real, ki: real, kd: real)

  /** The `data` dictionary published after every step. */
  datatype Report = Report(config: Gains, out: real, en: bool, time: real, frequency: real)

  /** The proportional, integral and derivative terms summed before clamping. */
  function Law(g: Gains, error: real, integral: real, derivative: real): real
  {
    g.kp * error + g.ki * integral + g.kd * derivative
  }

  /**
   * With the integral and derivative gains at zero only the proportional
   * term is left, so an enabled step outputs `Clamp(Kp * (sp - x), min, max)`
   * whatever the accumulators hold.
   */
  lemma ProportionalOnly(g: Gains, error: real, integral: real, derivative: real, lo: real, hi: real)
    requires g.ki == 0.0 && g.kd == 0.0
    ensures Clamp(Law(g, error, integral, derivative), lo, hi) == Clamp(g.kp * error, lo, hi)
  {
    assert g.ki * integral == 0.0 && g.kd * derivative == 0.0;
  }

  class Pid {
    var config: Gains
    /** The clamp bounds `min` and `max`, fixed at construction. */
    const lo: real
    const hi: real

    var sp: real
    var x: real
    var en: bool

    var integral: real
    var derivative: real
    var error: real
    var prevError: real
    var out: real

    var now: real
    var lastTime: real
    var dt: real
    var frequency: real
    var data: Report

    constructor (config: Gains, mini: real, maxi: real)
      ensures this.config == config && lo == mini && hi == maxi
      ensures sp == 0.0 && x == 0.0 && !en && out == 0.0
      ensures integral == 0.0 && derivative == 0.0 && error == 0.0 && prevError == 0.0
      ensures now == 0.0 && lastTime == 0.0 && dt == 0.0 && frequency == 0.0
      ensures data == Report(config, 0.0, false, 0.0, 0.0)
    {
      this.config := config;
      lo, hi := mini, maxi;
      sp, x, en := 0.0, 0.0, false;
      integral, derivative, error, prevError := 0.0, 0.0, 0.0, 0.0;
      out := 0.0;
      now, lastTime, dt, frequency := 0.0, 0.0, 0.0, 0.0;
      data := Report(config, 0.0, false, 0.0, 0.0);
    }

    /**
     * One controller step (`_loop`) at clock reading `t`. The source divides
     * by `dt` outside its exception handler, so a reading equal to the last
     * one is outside its domain.
     */
    method Step(t: real)
      requires t != lastTime
      modifies this`now, this`dt, this`frequency, this`lastTime
      modifies this`error, this`integral, this`derivative, this`prevError, this`out, this`data
      ensures now == t && lastTime == t && dt == t - old(lastTime) && frequency == 1.0 / dt
      // enabled: anti-windup integrator, derivative from the previous error, clamped output
      ensures en ==> error == sp - x
      ensures en ==> integral == Clamp(old(integral) + error * dt, lo, hi)
      ensures en ==> derivative == (error - old(prevError)) / dt && prevError == error
      ensures en ==> out == Clamp(Law(config, error, integral, derivative), lo, hi)
      ensures en && lo <= hi ==> lo <= integral <= hi && lo <= out <= hi
      // disabled: output forced to zero, accumulators untouched
      ensures !en ==> out == 0.0
      ensures !en ==> error == old(error) && integral == old(integral)
      ensures !en ==> derivative == old(derivative) && prevError == old(prevError)
      ensures data == Report(config, out, en, now, frequency)
    {
      Tick(t);
      Update();
    }

    /** The timing part of `_loop`: step size, call rate and the new last reading. */
    method Tick(t: real)
      requires t != lastTime
      modifies this`now, this`dt, this`frequency, this`lastTime
      ensures now == t && lastTime == t && dt == t - old(lastTime) && frequency == 1.0 / dt
    {
      now := t;
      dt := now - lastTime;
      frequency := 1.0 / dt;
      lastTime := now;
    }

    /** The control part of `_loop`, over the step size `Tick` has just set. */
    method Update()
      requires dt != 0.0
      modifies this`error, this`integral, this`derivative, this`prevError, this`out, this`data
      ensures en ==> error == sp - x
      ensures en ==> integral == Clamp(old(integral) + error * dt, lo, hi)
      ensures en ==> derivative == (error - old(prevError)) / dt && prevError == error
      ensures en ==> out == Clamp(Law(config, error, integral, derivative), lo, hi)
      ensures en && lo <= hi ==> lo <= integral <= hi && lo <= out <= hi
      ensures !en ==> out == 0.0
      ensures !en ==> error == old(error) && integral == old(integral)
      ensures !en ==> derivative == old(derivative) && prevError == old(prevError)
      ensures data == Report(config, out, en, now, frequency)
    {
      if en {
        Control();
      } else {
        out := 0.0;
      }
      data := Report(config, out, en, now, frequency);
    }

    /** The enabled branch: anti-windup integrator, derivative from the previous error, clamped output. */
    method Control()
      requires dt != 0.0
      modifies this`error, this`integral, this`derivative, this`prevError, this`out
      ensures error == sp - x
      ensures integral == Clamp(old(integral) + error * dt, lo, hi)
      ensures derivative == (error - old(prevError)) / dt && prevError == error
      ensures out == Clamp(Law(config, error, integral, derivative), lo, hi)
    {
      error := sp - x;
      var acc := integral + error * dt;
      integral := Clamp(acc, lo, hi);
      derivative := (error - prevError) / dt;
      prevError := error;
      var u := Law(config, error, integral, derivative);
      out := Clamp(u, lo, hi);
    }

    /**
     * `loop(sp, x, data)`: takes the setpoint, the measurement, the gains and
     * the enable flag from its arguments, runs one step and returns the
     * published report.
     */
    method Loop(setpoint: real, measurement: real, newConfig: Gains, enable: bool, t: real) returns (report: Report)
      requires t != lastTime
      modifies this`sp, this`x, this`en, this`config
      modifies this`now, this`dt, this`frequency, this`lastTime
      modifies this`error, this`integral, this`derivative, this`prevError, this`out, this`data
      ensures sp == setpoint && x == measurement && config == newConfig && en == enable
      ensures now == t && lastTime == t && dt == t - old(lastTime)
      ensures en ==> error == setpoint - measurement
      ensures en ==> integral == Clamp(old(integral) + error * dt, lo, hi)
      ensures en ==> derivative == (error - old(prevError)) / dt && prevError == error
      ensures en ==> out == Clamp(Law(newConfig, error, integral, derivative), lo, hi)
      ensures en && lo <= hi ==> lo <= integral <= hi && lo <= out <= hi
      ensures !en ==> out == 0.0 && integral == old(integral) && prevError == old(prevError)
      ensures !en ==> derivative == old(derivative) && error == old(error)
      ensures report == data && report == Report(newConfig, out, enable, t, 1.0 / (t - old(lastTime)))
    {
      sp := setpoint;
      config := newConfig;
      en := enable;
      x := measurement;
      Step(t);
      report := data;
    }

    /** `reset()`: zeroes the accumulators; its frame leaves every other field as it was. */
    method Reset()
      modifies this`integral, this`derivative, this`error, this`prevError
      ensures integral == 0.0 && derivative == 0.0 && error == 0.0 && prevError == 0.0
    {
      integral := 0.0;
      derivative := 0.0;
      error := 0.0;
      prevError := 0.0;
    }
  }

  /**
   * The integrator never winds up: driving a step `n` times from any state
   * keeps the integral inside [min, max], whatever the error and step sizes.
   */
  lemma {:induction false} IntegralStaysClamped(integral: real, errors: seq<real>, dts: seq<real>, lo: real, hi: real)
    requires lo <= hi && |errors| == |dts|
    ensures |errors| > 0 || lo <= integral <= hi ==> lo <= Integrate(integral, errors, dts, lo, hi) <= hi
    decreases |errors|
  {
    if |errors| > 0 {
      IntegralStaysClamped(Clamp(integral + errors[0] * dts[0], lo, hi), errors[1..], dts[1..], lo, hi);
    }
  }

  /** The integrator after a run of enabled steps with the given errors and step sizes. */
  function Integrate(integral: real, errors: seq<real>, dts: seq<real>, lo: real, hi: real): real
    requires |errors| == |dts|
    decreases |errors|
  {
    if |errors| == 0 then integral
    else Integrate(Clamp(integral + errors[0] * dts[0], lo, hi), errors[1..], dts[1..], lo, hi)
  }
}
