/**
 * The host side of one wheel motor (Brain_Code/motor.py). The serial port
 * is two logs: `rx`, the bytes the controller board has sent and the host
 * has not read yet, and `tx`, the commands the host has written. Reading
 * `n` bytes takes at most `n` from the front of `rx`; an exhausted `rx`
 * stands for the read timing out. The clock reading and the decoding of a
 * 4-byte little-endian float (`struct.unpack`) are parameters.
 */
module Motor {
  import opened Wire
  import opened Options

  /**
   * The report-frame scanner `_read_floats_with_markers` as a function of
   * the unread bytes: skip to a start marker, take the next eight bytes as
   * the payload and the one after as the end marker. A short payload, a
   * missing end marker or a wrong end marker drops the candidate together
   * with every byte read for it, so bytes inside a dropped candidate are
   * never taken for a start marker. An exhausted stream gives `None`.
   */
  function Scan(s: seq<byte>): (r: Option<seq<byte>>)
    ensures r.Some? ==> |r.value| == PAYLOAD_LEN
    decreases |s|
  {
    if |s| == 0 then None
    else if s[0] != STX then Scan(s[1..])
    else if |s| < FRAME_LEN then None
    else if s[9] != ETX then Scan(s[10..])
    else Some(s[1..9])
  }

  /** `s` holds a well-formed frame at `i` whose payload is `p`. */
  ghost predicate FrameAt(s: seq<byte>, i: int, p: seq<byte>)
  {
    0 <= i && i + FRAME_LEN <= |s| && s[i] == STX && s[i + 9] == ETX && s[i + 1..i + 9] == p
  }

  /** The scanner only ever returns the payload of a frame that is really there. */
  lemma {:induction false} ScanSound(s: seq<byte>)
    ensures Scan(s).Some? ==> exists i :: FrameAt(s, i, Scan(s).value)
    decreases |s|
  {
    if |s| > 0 && s[0] != STX {
      ScanSound(s[1..]);
      if Scan(s).Some? {
        var i :| FrameAt(s[1..], i, Scan(s).value);
        assert FrameAt(s, i + 1, Scan(s).value);
      }
    } else if |s| >= FRAME_LEN && s[0] == STX && s[9] != ETX {
      ScanSound(s[10..]);
      if Scan(s).Some? {
        var i :| FrameAt(s[10..], i, Scan(s).value);
        assert FrameAt(s, i + 10, Scan(s).value);
      }
    } else if Scan(s).Some? {
      assert FrameAt(s, 0, Scan(s).value);
    }
  }

  /** A start marker followed by fewer than nine bytes is never a frame. */
  lemma TruncatedTail(s: seq<byte>)
    requires 0 < |s| < FRAME_LEN && s[0] == STX
    ensures Scan(s) == None
  {
  }

  /** A candidate with a wrong end marker is dropped whole and scanning resumes after it. */
  lemma ResumesAfterBadEnd(s: seq<byte>)
    requires |s| >= FRAME_LEN && s[0] == STX && s[9] != ETX
    ensures Scan(s) == Scan(s[10..])
  {
  }

  /**
   * The converse of `ScanSound` does not hold: a stray start marker swallows
   * the nine bytes after it, so a well-formed frame that begins inside them
   * is missed and the scanner reports nothing.
   */
  lemma StrayMarkerHidesFrame()
    ensures var s: seq<byte> := [STX, 0, 0, STX, 0, 0, 0, 0, 0, 0, 0, 0, ETX];
      FrameAt(s, 3, [0, 0, 0, 0, 0, 0, 0, 0]) && Scan(s) == None
  {
    var s: seq<byte> := [STX, 0, 0, STX, 0, 0, 0, 0, 0, 0, 0, 0, ETX];
    assert s[3 + 1..3 + 9] == [0, 0, 0, 0, 0, 0, 0, 0];
    assert Scan(s) == Scan(s[10..]);
    assert s[10..] == [0, 0, ETX];
    assert Scan([0, 0, ETX]) == Scan([0, ETX]) == Scan([ETX]) == Scan([]);
  }

  /** The host's sign convention: position relative to the zero offset, both values negated when inverted. */
  function Corrected(raw: real, offset: real, invert: bool): real
  {
    (if invert then -raw else raw) - offset
  }

  function Velocity(raw: real, invert: bool): real
  {
    if invert then -raw else raw
  }

  /**
   * Re-zeroing: with the offset moved by the position a raw reading gave,
   * the same raw reading gives position 0, in both modes.
   */
  lemma ReZero(raw: real, offset: real, invert: bool)
    ensures Corrected(raw, offset + Corrected(raw, offset, invert), invert) == 0.0
  {
  }

  /** A line written to the serial port: a text command, or the target `T<value>` (3-decimal formatting not modelled). */
  datatype Command = Line(text: string) | Target(value: real)

  const VoltageMode: Command := Line("TT0\n")
  const TorqueControl: Command := Line("TC0\n")
  const EnableOff: Command := Line("TE0\n")
  const EnableOn: Command := Line("TE1\n")

  /** The setpoint as sent to the board: scaled by `factor`, negated for an inverted motor. */
  function TargetValue(sp: real, invert: bool, factor: real): real
  {
    if invert then -sp * factor else sp * factor
  }

  /**
   * What one `_send_data` writes. A disabled motor gets `TE0` and no
   * target; an enable on a rising edge of `en` gets `TE1`; an enabled
   * motor gets its scaled target after any `TE1`.
   */
  function SendCommands(en: bool, enLast: bool, sp: real, invert: bool, factor: real): (r: seq<Command>)
    ensures EnableOff in r <==> !en
    ensures EnableOn in r <==> en && !enLast
    ensures Target(TargetValue(sp, invert, factor)) in r <==> en
    ensures forall i :: 0 <= i < |r| && r[i].Target? ==> i == |r| - 1 && r[i].value == TargetValue(sp, invert, factor)
  {
    if !en then [EnableOff]
    else if !enLast then [EnableOn, Target(TargetValue(sp, invert, factor))]
    else [Target(TargetValue(sp, invert, factor))]
  }

  /** The number of rising edges in the enable flags `ens`, starting from `last`. */
  function RisingEdges(last: bool, ens: seq<bool>): nat
    decreases |ens|
  {
    if |ens| == 0 then 0
    else (if ens[0] && !last then 1 else 0) + RisingEdges(ens[0], ens[1..])
  }

  /** Everything written by a run of `set` calls with the given flags and setpoints. */
  function Session(enLast: bool, ens: seq<bool>, sps: seq<real>, invert: bool, factor: real): seq<Command>
    requires |ens| == |sps|
    decreases |ens|
  {
    if |ens| == 0 then []
    else SendCommands(ens[0], enLast, sps[0], invert, factor) + Session(ens[0], ens[1..], sps[1..], invert, factor)
  }

  /** Over any run of `set` calls, `TE1` is written exactly once per rising edge of `en`. */
  lemma {:induction false} EnableOncePerEdge(enLast: bool, ens: seq<bool>, sps: seq<real>, invert: bool, factor: real)
    requires |ens| == |sps|
    ensures multiset(Session(enLast, ens, sps, invert, factor))[EnableOn] == RisingEdges(enLast, ens)
    decreases |ens|
  {
    if |ens| > 0 {
      EnableOncePerEdge(ens[0], ens[1..], sps[1..], invert, factor);
      var head := SendCommands(ens[0], enLast, sps[0], invert, factor);
      assert multiset(head)[EnableOn] == if ens[0] && !enLast then 1 else 0;
    }
  }

  /** Over any run of `set` calls, `TE0` is written exactly once per disabled call. */
  lemma {:induction false} DisableEveryCall(enLast: bool, ens: seq<bool>, sps: seq<real>, invert: bool, factor: real)
    requires |ens| == |sps|
    ensures multiset(Session(enLast, ens, sps, invert, factor))[EnableOff] == multiset(ens)[false]
    decreases |ens|
  {
    if |ens| > 0 {
      DisableEveryCall(ens[0], ens[1..], sps[1..], invert, factor);
      var head := SendCommands(ens[0], enLast, sps[0], invert, factor);
      assert multiset(head)[EnableOff] == if ens[0] then 0 else 1;
      assert ens == [ens[0]] + ens[1..];
    }
  }

  /** The `data` dictionary published by `get`. */
  datatype MotorData = MotorData(sp: real, en: bool, position: real, velocity: real,
                                 velocityLp: real, time: real, frequency: real)

  class Motor {
    const invert: bool
    /** `min_max / 100`: the scale from a setpoint in percent to the board's target. */
    const factor: real

    var pos: real
    var offset: real
    var vel: real
    var sp: real
    var en: bool
    var enLast: bool
    var frequency: real
    var now: real
    var lastTime: real
    var data: MotorData

    /** Bytes received and not yet read. */
    var rx: seq<byte>
    /** Commands written, oldest first. */
    var tx: seq<Command>

    /** The raw position of the last frame applied (0 before any). */
    ghost var rawPos: real

    /** The published position is always the last raw position seen through the current offset. */
    ghost predicate Valid()
      reads this
    {
      pos == Corrected(rawPos, offset, invert)
    }

    /** Opens the link and selects voltage mode and torque control. */
    constructor (invert: bool, minMax: real)
      ensures Valid() && this.invert == invert && factor == minMax / 100.0
      ensures pos == 0.0 && offset == 0.0 && vel == 0.0 && sp == 0.0 && !en && !enLast
      ensures frequency == 0.0 && now == 0.0 && lastTime == 0.0
      ensures data == MotorData(0.0, false, 0.0, 0.0, 0.0, 0.0, 0.0)
      ensures rx == [] && tx == [VoltageMode, TorqueControl]
    {
      this.invert := invert;
      factor := minMax / 100.0;
      pos, offset, vel, sp := 0.0, 0.0, 0.0, 0.0;
      en, enLast := false, false;
      frequency, now, lastTime := 0.0, 0.0, 0.0;
      data := MotorData(0.0, false, 0.0, 0.0, 0.0, 0.0, 0.0);
      rx := [];
      tx := [VoltageMode];
      tx := tx + [TorqueControl];
      rawPos := 0.0;
    }

    /** `read(size)`: up to `size` bytes from the front of the input. */
    method Read(size: nat) returns (b: seq<byte>)
      modifies this`rx
      ensures |b| == if size <= |old(rx)| then size else |old(rx)|
      ensures old(rx) == b + rx
    {
      var n := if size <= |rx| then size else |rx|;
      b := rx[..n];
      rx := rx[n..];
      assert old(rx) == b + rx;
    }

    /**
     * `_read_floats_with_markers`: consumes input until a frame is found or
     * the input runs out. A found frame flushes the rest of the input.
     */
    method ReadFrame() returns (r: Option<seq<byte>>)
      modifies this`rx
      ensures r == Scan(old(rx)) && rx == []
    {
      while true
        invariant Scan(rx) == Scan(old(rx))
        decreases |rx|
      {
        ghost var s := rx;
        var b := Read(1);
        if |b| == 0 {
          return None;
        }
        assert s == b + rx && rx == s[1..];
        if b[0] == STX {
          var payload := Read(8);
          if |payload| != 8 {
            continue;
          }
          var end := Read(1);
          if |end| == 0 || end[0] != ETX {
            assert |end| != 0 ==> rx == s[10..] && s[9] == end[0];
            continue;
          }
          assert payload == s[1..9] && s[9] == end[0];
          rx := [];
          return Some(payload);
        }
      }
    }

    /**
     * `_rcv_data`: a frame's payload is decoded as position then velocity
     * and applied through the sign convention; without a frame, `pos` and
     * `vel` stay as they were.
     */
    method RcvData(f32: seq<byte> -> real)
      requires Valid()
      modifies this`rx, this`pos, this`vel, this`rawPos
      ensures Valid() && rx == []
      ensures Scan(old(rx)).None? ==> pos == old(pos) && vel == old(vel) && rawPos == old(rawPos)
      ensures Scan(old(rx)).Some? ==>
        var p := Scan(old(rx)).value;
        rawPos == f32(p[..4]) && pos == Corrected(f32(p[..4]), offset, invert) && vel == Velocity(f32(p[4..]), invert)
    {
      var floats := ReadFrame();
      if floats.Some? {
        var rawP, rawV := f32(floats.value[..4]), f32(floats.value[4..]);
        if invert {
          pos := -rawP - offset;
          vel := -rawV;
        } else {
          pos := rawP - offset;
          vel := rawV;
        }
        rawPos := rawP;
      }
    }

    /**
     * `_send_data`: writes the enable command chosen by the current and
     * the previous flag, then the scaled target when enabled, and remembers
     * the flag.
     */
    method SendData()
      modifies this`enLast, this`tx
      ensures enLast == en
      ensures tx == old(tx) + SendCommands(en, old(enLast), sp, invert, factor)
    {
      if !en {
        tx := tx + [EnableOff];
      } else if en && !enLast {
        tx := tx + [EnableOn];
      }
      enLast := en;
      if en {
        var value: real;
        if invert {
          value := -sp * factor;
        } else {
          value := sp * factor;
        }
        assert value == TargetValue(sp, invert, factor);
        tx := tx + [Target(value)];
        assert old(enLast) ==> tx == old(tx) + [Target(value)];
        assert !old(enLast) ==> tx == old(tx) + [EnableOn, Target(value)];
      }
    }

    /** `set(data)`: takes the flag and the setpoint, publishes them and sends. */
    method Set(enable: bool, setpoint: real)
      modifies this`en, this`sp, this`data, this`enLast, this`tx
      ensures en == enable && sp == setpoint && enLast == enable
      ensures data == old(data).(en := enable, sp := setpoint)
      ensures tx == old(tx) + SendCommands(enable, old(enLast), setpoint, invert, factor)
    {
      en := enable;
      data := data.(en := en);
      sp := setpoint;
      data := data.(sp := sp);
      SendData();
    }

    /**
     * `get()` at clock reading `t`: records the time and rate, applies
     * `Scan` of the input (the first frame the scanner accepts; a stray
     * `0x02` can hide one, see `StrayMarkerHidesFrame`) and publishes the
     * result. The
     * rate divides by the time since the last call, so `t` must differ
     * from it.
     */
    method Get(t: real, f32: seq<byte> -> real) returns (d: MotorData)
      requires Valid() && t != lastTime
      modifies this`now, this`frequency, this`lastTime, this`data
      modifies this`rx, this`pos, this`vel, this`rawPos
      ensures Valid() && rx == []
      ensures now == t && lastTime == t && frequency == 1.0 / (t - old(lastTime))
      ensures Scan(old(rx)).None? ==> pos == old(pos) && vel == old(vel)
      ensures Scan(old(rx)).Some? ==>
        var p := Scan(old(rx)).value;
        pos == Corrected(f32(p[..4]), offset, invert) && vel == Velocity(f32(p[4..]), invert)
      ensures d == data && d == old(data).(position := pos, velocity := vel, time := t, frequency := frequency)
    {
      now := t;
      frequency := 1.0 / (now - lastTime);
      lastTime := now;
      RcvData(f32);
      data := data.(position := pos, velocity := vel, time := now, frequency := frequency);
      d := data;
    }

    /**
     * `reset()`: moves the zero offset by the current position and zeroes
     * it; the last raw reading now maps to 0, and so will any repeat of it.
     */
    method Reset()
      requires Valid()
      modifies this`offset, this`pos
      ensures Valid()
      ensures offset == old(offset) + old(pos) && pos == 0.0
      ensures Corrected(rawPos, offset, invert) == 0.0
    {
      ReZero(rawPos, offset, invert);
      offset := offset + pos;
      pos := 0.0;
    }
  }
}
