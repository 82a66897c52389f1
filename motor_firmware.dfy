/**
 * The report path of the motor controller firmware (Motor_Code/src/main.cpp).
 * Every pass of `loop()` checks whether `reportCycle` milliseconds have
 * passed since `last_report`, using unsigned 32-bit subtraction, and if so
 * writes one frame: start marker, the position's four bytes, the velocity's
 * four bytes, end marker. The two `millis()` readings of a pass and the
 * in-memory bytes of the two floats are parameters.
 */
module MotorFirmware {
  import opened Wire

  const U32_MODULUS: int := 0x1_0000_0000

  newtype u32 = x: int | 0 <= x < 0x1_0000_0000

  /** `reportCycle`: 13 ms, about 75 reports per second. */
  const ReportCycle: u32 := 13

  /** `millis() - last_report` in `uint32_t` arithmetic: the difference modulo 2^32. */
  function Elapsed(now: u32, last: u32): (d: u32)
    ensures now >= last ==> d as int == now as int - last as int
    ensures now < last ==> d as int == now as int - last as int + U32_MODULUS
  {
    ((now as int - last as int) % U32_MODULUS) as u32
  }

  /** The 32-bit clock reading at absolute time `t` ms. */
  function Millis(t: nat): u32
  {
    (t % U32_MODULUS) as u32
  }

  /**
   * The wrapped difference of two clock readings is the true time between
   * them whenever that is under 2^32 ms (about 49.7 days), even when the
   * counter wrapped in between.
   */
  lemma ElapsedAcrossWrap(t0: nat, t1: nat)
    requires t0 <= t1 < t0 + U32_MODULUS
    ensures Elapsed(Millis(t1), Millis(t0)) as int == t1 - t0
  {
    var q0, q1 := t0 / U32_MODULUS, t1 / U32_MODULUS;
    assert t0 == q0 * U32_MODULUS + Millis(t0) as int;
    assert t1 == q1 * U32_MODULUS + Millis(t1) as int;
    if Millis(t1) >= Millis(t0) {
      assert (q1 - q0) * U32_MODULUS == t1 - t0 - (Millis(t1) as int - Millis(t0) as int);
      assert q1 == q0;
    } else {
      assert (q1 - q0) * U32_MODULUS == t1 - t0 + (Millis(t0) as int - Millis(t1) as int);
      assert q1 == q0 + 1;
    }
  }

  /** So a report is due exactly when at least `reportCycle` ms really have passed. */
  lemma DueIffCycleElapsed(t0: nat, t1: nat)
    requires t0 <= t1 < t0 + U32_MODULUS
    ensures Elapsed(Millis(t1), Millis(t0)) >= ReportCycle <==> t1 - t0 >= ReportCycle as int
  {
    ElapsedAcrossWrap(t0, t1);
  }

  /** The ten bytes written for one report. */
  function Frame(position: seq<byte>, velocity: seq<byte>): (f: seq<byte>)
    requires |position| == 4 && |velocity| == 4
    ensures |f| == FRAME_LEN && f[0] == STX && f[9] == ETX
    ensures f[1..5] == position && f[5..9] == velocity
  {
    [STX] + position + velocity + [ETX]
  }

  class Firmware {
    /** `last_report`. */
    var lastReport: u32
    /** Every byte written to the serial port, oldest first. */
    var tx: seq<byte>

    /** The end of `setup()`: `last_report = millis()`. */
    constructor (clock: u32)
      ensures lastReport == clock && tx == []
    {
      lastReport := clock;
      tx := [];
    }

    /**
     * The reporting part of one `loop()` pass. `gateClock` is the reading
     * compared against `last_report`, `endClock` the one stored after the
     * frame is written; `last_report` changes only when a frame is sent.
     */
    method Loop(gateClock: u32, endClock: u32, position: seq<byte>, velocity: seq<byte>)
      requires |position| == 4 && |velocity| == 4
      modifies this
      ensures Elapsed(gateClock, old(lastReport)) >= ReportCycle ==>
        tx == old(tx) + Frame(position, velocity) && lastReport == endClock
      ensures Elapsed(gateClock, old(lastReport)) < ReportCycle ==>
        tx == old(tx) && lastReport == old(lastReport)
    {
      if Elapsed(gateClock, lastReport) >= ReportCycle {
        tx := tx + [STX];
        tx := tx + position;
        tx := tx + velocity;
        tx := tx + [ETX];
        assert tx == old(tx) + Frame(position, velocity);
        lastReport := endClock;
      }
    }
  }
}
