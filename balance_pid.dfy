/**
 * The four-state balance PID (Brain_Code/balance_PID.py). A vector PID over
 * the state [pitch, position, pitch rate, velocity]: componentwise error,
 * an unclamped integrator, a derivative from the previous error, and an
 * output that sums all twelve terms and clamps the sum into [-1, 1]. Its
 * thread loop skips every clock reading that comes less than `1/freq` after
 * the last executed tick.
 */
module BalancePid {
  import opened Numeric

  /** A 4-vector over the state, named by the setpoint keys `p`, `x`, `pv`, `v`. */
  datatype Vec4 = Vec4(p: real, x: real, pv: real, v: real)

  const Zero: Vec4 := Vec4(0.0, 0.0, 0.0, 0.0)

  function Add(a: Vec4, b: Vec4): Vec4 { Vec4(a.p + b.p, a.x + b.x, a.pv + b.pv, a.v + b.v) }

  function Sub(a: Vec4, b: Vec4): Vec4 { Vec4(a.p - b.p, a.x - b.x, a.pv - b.pv, a.v - b.v) }

  /** Elementwise product, numpy's `*` on two arrays. */
  function Mul(a: Vec4, b: Vec4): Vec4 { Vec4(a.p * b.p, a.x * b.x, a.pv * b.pv, a.v * b.v) }

  function Scale(a: Vec4, s: real): Vec4 { Vec4(a.p * s, a.x * s, a.pv * s, a.v * s) }

  function Div(a: Vec4, s: real): Vec4
    requires s != 0.0
  {
    Vec4(a.p / s, a.x / s, a.pv / s, a.v / s)
  }

  /** `np.sum`. */
  function Sum(a: Vec4): real { a.p + a.x + a.pv + a.v }

  /** Integrating one error over two consecutive intervals equals integrating it over their union. */
  lemma Telescope(i: Vec4, e: Vec4, t0: real, t1: real)
    ensures Add(Add(i, Scale(e, t0)), Scale(e, t1 - t0)) == Add(i, Scale(e, t1))
  {
    assert e.p * t0 + e.p * (t1 - t0) == e.p * t1;
    assert e.x * t0 + e.x * (t1 - t0) == e.x * t1;
    assert e.pv * t0 + e.pv * (t1 - t0) == e.pv * t1;
    assert e.v * t0 + e.v * (t1 - t0) == e.v * t1;
  }

  /** The per-component gain vectors read from the configuration. */
  datatype Gains = Gains(kp: Vec4, ki: Vec4, kd: Vec4)

  /** The `data` dictionary published after every executed tick. */
  datatype Report = Report(config: Gains, out: real, en: bool, time: real, frequency: real)

  /** `np.sum(Kp * error + Ki * integral + Kd * derivative)` before clamping. */
  function Law(g: Gains, error: Vec4, integral: Vec4, derivative: Vec4): real
  {
    Sum(Add(Add(Mul(g.kp, error), Mul(g.ki, integral)), Mul(g.kd, derivative)))
  }

  class BalancePid {
    /** The target tick rate in Hz. */
    const freq: real

    var config: Gains
    var sp: Vec4
    var x: Vec4
    var en: bool

    var integral: Vec4
    var derivative: Vec4
    var error: Vec4
    var prevError: Vec4
    var out: real

    var pitch: real
    var pos: real
    var pitchVel: real
    var vel: real

    var now: real
    var dt: real
    var frequency: real
    var data: Report

    /** The rate is positive and the published output never leaves [-1, 1]. */
    ghost predicate Valid()
      reads this
    {
      freq > 0.0 && -1.0 <= out <= 1.0
    }

    constructor (freq: real, config: Gains)
      requires freq > 0.0
      ensures Valid() && this.freq == freq && this.config == config
      ensures sp == Zero && x == Zero && !en && out == 0.0
      ensures integral == Zero && derivative == Zero && error == Zero && prevError == Zero
      ensures pitch == 0.0 && pos == 0.0 && pitchVel == 0.0 && vel == 0.0
      ensures now == 0.0 && dt == 0.0 && frequency == 0.0
      ensures data == Report(config, 0.0, false, 0.0, 0.0)
    {
      this.freq := freq;
      this.config := config;
      sp, x, en := Zero, Zero, false;
      integral, derivative, error, prevError := Zero, Zero, Zero, Zero;
      out := 0.0;
      pitch, pos, pitchVel, vel := 0.0, 0.0, 0.0, 0.0;
      now, dt, frequency := 0.0, 0.0, 0.0;
      data := Report(config, 0.0, false, 0.0, 0.0);
    }

    /**
     * One pass of the thread loop at clock reading `t`, with `lastTime` the
     * time of the last executed tick. A reading less than `1/freq` after it
     * only records `now` and `dt` and changes nothing else.
     */
    method Tick(t: real, lastTime: real) returns (newLastTime: real)
      requires Valid()
      modifies this`now, this`dt, this`frequency, this`data
      modifies this`error, this`integral, this`derivative, this`prevError, this`out
      ensures Valid()
      ensures now == t && dt == t - lastTime
      ensures dt < 1.0 / freq ==> newLastTime == lastTime && frequency == old(frequency) && data == old(data)
      ensures dt < 1.0 / freq ==> out == old(out) && error == old(error) && integral == old(integral)
      ensures dt < 1.0 / freq ==> derivative == old(derivative) && prevError == old(prevError)
      ensures dt >= 1.0 / freq ==> newLastTime == t && frequency == 1.0 / dt
      ensures dt >= 1.0 / freq ==> data == Report(config, out, en, now, frequency)
      // an enabled tick: componentwise error, unclamped integrator, summed and clamped output
      ensures dt >= 1.0 / freq && en ==> error == Sub(sp, x) && integral == Add(old(integral), Scale(error, dt))
      ensures dt >= 1.0 / freq && en ==> derivative == Div(Sub(error, old(prevError)), dt) && prevError == error
      ensures dt >= 1.0 / freq && en ==> out == Clamp(Law(config, error, integral, derivative), -1.0, 1.0)
      // a disabled tick: output zero, accumulators untouched
      ensures dt >= 1.0 / freq && !en ==> out == 0.0 && error == old(error) && integral == old(integral)
      ensures dt >= 1.0 / freq && !en ==> derivative == old(derivative) && prevError == old(prevError)
    {
      now := t;
      dt := now - lastTime;
      if dt < 1.0 / freq {
        return lastTime;
      }
      frequency := 1.0 / dt;
      newLastTime := now;
      if en {
        error := Sub(sp, x);
        integral := Add(integral, Scale(error, dt));
        derivative := Div(Sub(error, prevError), dt);
        prevError := error;
        var u := Law(config, error, integral, derivative);
        out := Clamp(u, -1.0, 1.0);
      } else {
        out := 0.0;
      }
      data := Report(config, out, en, now, frequency);
    }

    /**
     * The thread loop `_balance_pid_loop` over the clock readings taken
     * while it runs; its local `last_time` starts at 0 and is returned.
     * With the setpoint and measurement held, the integrator gains exactly
     * `(sp - x) * lastTime` over the run: the step sizes of the executed
     * ticks add up to the time of the last one.
     */
    method Run(clock: seq<real>) returns (lastTime: real)
      requires Valid()
      modifies this`now, this`dt, this`frequency, this`data
      modifies this`error, this`integral, this`derivative, this`prevError, this`out
      ensures Valid()
      ensures en ==> integral == Add(old(integral), Scale(Sub(sp, x), lastTime))
      ensures !en ==> integral == old(integral) && prevError == old(prevError)
      ensures lastTime == 0.0 || lastTime in clock
    {
      lastTime := 0.0;
      assert Add(integral, Scale(Sub(sp, x), lastTime)) == integral;
      var i := 0;
      while i < |clock|
        invariant 0 <= i <= |clock|
        invariant Valid()
        invariant en ==> integral == Add(old(integral), Scale(Sub(sp, x), lastTime))
        invariant !en ==> integral == old(integral) && prevError == old(prevError)
        invariant lastTime == 0.0 || lastTime in clock[..i]
      {
        ghost var before := lastTime;
        lastTime := Tick(clock[i], lastTime);
        if en && lastTime != before {
          Telescope(old(integral), Sub(sp, x), before, lastTime);
        }
        i := i + 1;
      }
    }

    /**
     * `set(data)`: copies the setpoint, gains and enable flag, and builds the
     * measured state from the orientation sensor and the mean of the two wheels.
     */
    method Set(setpoint: Vec4, newConfig: Gains, enable: bool, imuPitch: real, gyroY: real,
               posLeft: real, posRight: real, velLeft: real, velRight: real)
      modifies this`sp, this`config, this`en, this`pitch, this`pitchVel, this`pos, this`vel, this`x
      ensures sp == setpoint && config == newConfig && en == enable
      ensures pitch == imuPitch && pitchVel == gyroY
      ensures pos == (posLeft + posRight) / 2.0 && vel == (velLeft + velRight) / 2.0
      ensures x == Vec4(imuPitch, (posLeft + posRight) / 2.0, gyroY, (velLeft + velRight) / 2.0)
    {
      sp := setpoint;
      config := newConfig;
      en := enable;
      pitch := imuPitch;
      pitchVel := gyroY;
      pos := (posLeft + posRight) / 2.0;
      vel := (velLeft + velRight) / 2.0;
      x := Vec4(pitch, pos, pitchVel, vel);
    }

    /** `reset()`: zeroes the four accumulator vectors and nothing else. */
    method Reset()
      modifies this`integral, this`derivative, this`error, this`prevError
      ensures integral == Zero && derivative == Zero && error == Zero && prevError == Zero
    {
      integral := Zero;
      derivative := Zero;
      error := Zero;
      prevError := Zero;
    }
  }
}
