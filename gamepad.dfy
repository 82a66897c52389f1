/**
 * The game-controller reader (Brain_Code/ps4_controller.py): each input
 * event from the kernel's event device updates at most one field of the
 * controller state. Buttons become flags, stick axes are inverted, offset
 * and clipped to [0, 255] (with a deadband around the centre of the left
 * stick's horizontal axis), triggers are offset and clipped, and the d-pad
 * is negated. The events a read returns are a parameter; device discovery,
 * reconnection, the lock and the polling thread are not modelled.
 */
module Gamepad {
  import opened Numeric
  import opened Options

  /** Event types and codes, as numbered by the Linux input subsystem. */
  const EV_KEY: int := 0x01
  const EV_ABS: int := 0x03

  const BTN_SOUTH: int := 0x130
  const BTN_EAST: int := 0x131
  const BTN_NORTH: int := 0x133
  const BTN_WEST: int := 0x134
  const BTN_TL: int := 0x136
  const BTN_TR: int := 0x137
  const BTN_SELECT: int := 0x13a
  const BTN_START: int := 0x13b
  const BTN_MODE: int := 0x13c
  const BTN_THUMBL: int := 0x13d
  const BTN_THUMBR: int := 0x13e

  const ABS_X: int := 0x00
  const ABS_Y: int := 0x01
  const ABS_Z: int := 0x02
  const ABS_RX: int := 0x03
  const ABS_RY: int := 0x04
  const ABS_RZ: int := 0x05
  const ABS_HAT0X: int := 0x10
  const ABS_HAT0Y: int := 0x11

  /** The per-axis calibration offsets and the clip range. */
  const LeftXOffset: int := -3
  const LeftYOffset: int := 0
  const RightXOffset: int := 5
  const RightYOffset: int := -3
  const L2Offset: int := 0
  const R2Offset: int := 0
  const AxisMin: real := 0.0
  const AxisMax: real := 255.0

  /** The centre the left stick's horizontal axis snaps to, and the half-width of its deadband. */
  const Centre: real := (AxisMax - AxisMin) / 2.0
  const Deadband: real := 5.0

  /** An input event: type, code and value. */
  datatype Event = Event(kind: int, code: int, value: int)

  /** The fields one event can address. */
  datatype Field =
    | X | O | D | V | L1 | R1 | Share | Option | L3 | R3 | Ps
    | DpadX | DpadY | LeftX | LeftY | RightX | RightY | L2 | R2

  /** A field's value: a button flag, a d-pad step or an axis position. */
  datatype Value = Flag(b: bool) | Step(i: int) | Position(r: real)

  /** A button's flag. */
  datatype Button = Button(pressed: bool)

  /** The controller state the reader keeps: eleven buttons, the d-pad, two sticks and two triggers. */
  datatype PadState = PadState(
    x: Button, v: Button, d: Button, o: Button, l1: Button, r1: Button,
    share: Button, option: Button, l3: Button, r3: Button, ps: Button,
    dpadX: int, dpadY: int,
    leftX: real, leftY: real, rightX: real, rightY: real, l2: real, r2: real)

  /** The initial state: nothing pressed, everything at 0. */
  const Up: Button := Button(false)
  const Released: PadState := PadState(Up, Up, Up, Up, Up, Up, Up, Up, Up, Up, Up, 0, 0, 0.0, 0.0, 0.0, 0.0, 0.0, 0.0)

  function Read(s: PadState, f: Field): Value
  {
    match f
    case X => Flag(s.x.pressed)
    case O => Flag(s.o.pressed)
    case D => Flag(s.d.pressed)
    case V => Flag(s.v.pressed)
    case L1 => Flag(s.l1.pressed)
    case R1 => Flag(s.r1.pressed)
    case Share => Flag(s.share.pressed)
    case Option => Flag(s.option.pressed)
    case L3 => Flag(s.l3.pressed)
    case R3 => Flag(s.r3.pressed)
    case Ps => Flag(s.ps.pressed)
    case DpadX => Step(s.dpadX)
    case DpadY => Step(s.dpadY)
    case LeftX => Position(s.leftX)
    case LeftY => Position(s.leftY)
    case RightX => Position(s.rightX)
    case RightY => Position(s.rightY)
    case L2 => Position(s.l2)
    case R2 => Position(s.r2)
  }

  /**
   * The field an event addresses, if any: a button in the button map by its
   * code (south is `x`, east `o`, north `d`, west `v`), or one of the eight
   * handled absolute axes. Every other type or code addresses nothing.
   */
  function Address(e: Event): Option<Field>
  {
    if e.kind == EV_KEY then
      if e.code == BTN_SOUTH then Some(X)
      else if e.code == BTN_EAST then Some(O)
      else if e.code == BTN_NORTH then Some(D)
      else if e.code == BTN_WEST then Some(V)
      else if e.code == BTN_TL then Some(L1)
      else if e.code == BTN_TR then Some(R1)
      else if e.code == BTN_SELECT then Some(Share)
      else if e.code == BTN_START then Some(Option)
      else if e.code == BTN_THUMBL then Some(L3)
      else if e.code == BTN_THUMBR then Some(R3)
      else if e.code == BTN_MODE then Some(Ps)
      else None
    else if e.kind == EV_ABS then
      if e.code == ABS_X then Some(LeftX)
      else if e.code == ABS_Y then Some(LeftY)
      else if e.code == ABS_RX then Some(RightX)
      else if e.code == ABS_RY then Some(RightY)
      else if e.code == ABS_Z then Some(L2)
      else if e.code == ABS_RZ then Some(R2)
      else if e.code == ABS_HAT0X then Some(DpadX)
      else if e.code == ABS_HAT0Y then Some(DpadY)
      else None
    else None
  }

  /**
   * A stick axis: the raw value inverted about 255, shifted by the offset
   * and clipped. It always lies in [0, 255], equals the shifted value when
   * that is in range, and never increases when the raw value increases.
   */
  function Stick(raw: int, offset: int): (r: real)
    ensures AxisMin <= r <= AxisMax
    ensures 0 <= 255 - raw - offset <= 255 ==> r == (255 - raw - offset) as real
  {
    Clip((255 - raw - offset) as real, AxisMin, AxisMax)
  }

  lemma StickInverted(raw1: int, raw2: int, offset: int)
    requires raw1 <= raw2
    ensures Stick(raw2, offset) <= Stick(raw1, offset)
  {
  }

  /**
   * The left stick's horizontal axis: as `Stick`, but a value strictly
   * within 5 of the centre 127.5 snaps to it. So the result is either the
   * centre or at least 5 away from it.
   */
  function LeftStickX(raw: int): (r: real)
    ensures AxisMin <= r <= AxisMax
    ensures r == Centre || r <= Centre - Deadband || r >= Centre + Deadband
    ensures Centre - Deadband < Stick(raw, LeftXOffset) < Centre + Deadband <==> r == Centre
  {
    var p := Stick(raw, LeftXOffset);
    if (AxisMax - AxisMin) - (AxisMax - AxisMin) / 2.0 + 5.0 > p > (AxisMax - AxisMin) - (AxisMax - AxisMin) / 2.0 - 5.0
    then (AxisMax - AxisMin) / 2.0
    else p
  }

  /** A trigger: the raw value shifted by the offset and clipped, not inverted; it never decreases as the raw value grows. */
  function Trigger(raw: int, offset: int): (r: real)
    ensures AxisMin <= r <= AxisMax
    ensures 0 <= raw - offset <= 255 ==> r == (raw - offset) as real
  {
    Clip((raw - offset) as real, AxisMin, AxisMax)
  }

  lemma TriggerMonotone(raw1: int, raw2: int, offset: int)
    requires raw1 <= raw2
    ensures Trigger(raw1, offset) <= Trigger(raw2, offset)
  {
  }

  /** The value an addressed field receives from an event. */
  function Written(e: Event, f: Field): Value
  {
    match f
    case DpadX | DpadY => Step(-e.value)
    case LeftX => Position(LeftStickX(e.value))
    case LeftY => Position(Stick(e.value, LeftYOffset))
    case RightX => Position(Stick(e.value, RightXOffset))
    case RightY => Position(Stick(e.value, RightYOffset))
    case L2 => Position(Trigger(e.value, L2Offset))
    case R2 => Position(Trigger(e.value, R2Offset))
    case _ => Flag(e.value != 0)
  }

  /** Every axis and trigger lies in [0, 255]. */
  ghost predicate InRange(s: PadState)
  {
    AxisMin <= s.leftX <= AxisMax && AxisMin <= s.leftY <= AxisMax
    && AxisMin <= s.rightX <= AxisMax && AxisMin <= s.rightY <= AxisMax
    && AxisMin <= s.l2 <= AxisMax && AxisMin <= s.r2 <= AxisMax
  }

  /** A button event: a code in the button map sets its flag to `value != 0`. */
  function ApplyKey(s: PadState, code: int, value: int): PadState
  {
    if code == BTN_SOUTH then s.(x := Button(value != 0))
    else if code == BTN_EAST then s.(o := Button(value != 0))
    else if code == BTN_NORTH then s.(d := Button(value != 0))
    else if code == BTN_WEST then s.(v := Button(value != 0))
    else if code == BTN_TL then s.(l1 := Button(value != 0))
    else if code == BTN_TR then s.(r1 := Button(value != 0))
    else if code == BTN_SELECT then s.(share := Button(value != 0))
    else if code == BTN_START then s.(option := Button(value != 0))
    else if code == BTN_THUMBL then s.(l3 := Button(value != 0))
    else if code == BTN_THUMBR then s.(r3 := Button(value != 0))
    else if code == BTN_MODE then s.(ps := Button(value != 0))
    else s
  }

  /** An absolute-axis event: a stick, a trigger or the d-pad. */
  function ApplyAbs(s: PadState, code: int, value: int): PadState
  {
    if code == ABS_X then s.(leftX := LeftStickX(value))
    else if code == ABS_Y then s.(leftY := Stick(value, LeftYOffset))
    else if code == ABS_RX then s.(rightX := Stick(value, RightXOffset))
    else if code == ABS_RY then s.(rightY := Stick(value, RightYOffset))
    else if code == ABS_Z then s.(l2 := Trigger(value, L2Offset))
    else if code == ABS_RZ then s.(r2 := Trigger(value, R2Offset))
    else if code == ABS_HAT0X then s.(dpadX := -value)
    else if code == ABS_HAT0Y then s.(dpadY := -value)
    else s
  }

  /** One event handled by `_process_inputs`: buttons, then absolute axes; other types are ignored. */
  function Apply(s: PadState, e: Event): (t: PadState)
    ensures InRange(s) ==> InRange(t)
    ensures Address(e).None? ==> t == s
  {
    if e.kind == EV_KEY then ApplyKey(s, e.code, e.value)
    else if e.kind == EV_ABS then ApplyAbs(s, e.code, e.value)
    else s
  }

  /**
   * An event changes exactly the field it addresses, to the value
   * `Written` gives it, and leaves every other field as it was.
   */
  lemma ApplyWritesOneField(s: PadState, e: Event, f: Field)
    ensures Read(Apply(s, e), f) == if Address(e) == Some(f) then Written(e, f) else Read(s, f)
  {
    if e.kind == EV_KEY {
      KeyWritesOneField(s, e, f);
    } else if e.kind == EV_ABS {
      AbsWritesOneField(s, e, f);
    }
  }

  lemma KeyWritesOneField(s: PadState, e: Event, f: Field)
    requires e.kind == EV_KEY
    ensures Read(ApplyKey(s, e.code, e.value), f) == if Address(e) == Some(f) then Written(e, f) else Read(s, f)
  {
    var c := e.code;
    if c == BTN_SOUTH {} else if c == BTN_EAST {} else if c == BTN_NORTH {} else if c == BTN_WEST {}
    else if c == BTN_TL {} else if c == BTN_TR {} else if c == BTN_SELECT {} else if c == BTN_START {}
    else if c == BTN_THUMBL {} else if c == BTN_THUMBR {} else if c == BTN_MODE {}
  }

  lemma AbsWritesOneField(s: PadState, e: Event, f: Field)
    requires e.kind == EV_ABS
    ensures Read(ApplyAbs(s, e.code, e.value), f) == if Address(e) == Some(f) then Written(e, f) else Read(s, f)
  {
    var c := e.code;
    if c == ABS_X {} else if c == ABS_Y {} else if c == ABS_RX {} else if c == ABS_RY {}
    else if c == ABS_Z {} else if c == ABS_RZ {} else if c == ABS_HAT0X {} else if c == ABS_HAT0Y {}
  }

  /** The events of one read, handled oldest first. */
  function ApplyAll(s: PadState, es: seq<Event>): PadState
    decreases |es|
  {
    if |es| == 0 then s else Apply(ApplyAll(s, es[..|es| - 1]), es[|es| - 1])
  }

  /** The value of `f` after `es`: written by the newest event addressing it, or else as before. */
  function LastWrite(s: PadState, es: seq<Event>, f: Field): Value
    decreases |es|
  {
    if |es| == 0 then Read(s, f)
    else if Address(es[|es| - 1]) == Some(f) then Written(es[|es| - 1], f)
    else LastWrite(s, es[..|es| - 1], f)
  }

  /** After any run of events each field holds its newest write: the last event for a field wins. */
  lemma {:induction false} LastWriteWins(s: PadState, es: seq<Event>, f: Field)
    ensures Read(ApplyAll(s, es), f) == LastWrite(s, es, f)
    decreases |es|
  {
    if |es| > 0 {
      LastWriteWins(s, es[..|es| - 1], f);
      ApplyWritesOneField(ApplyAll(s, es[..|es| - 1]), es[|es| - 1], f);
    }
  }

  /** No run of events can push an axis or a trigger out of [0, 255]. */
  lemma {:induction false} ApplyAllInRange(s: PadState, es: seq<Event>)
    requires InRange(s)
    ensures InRange(ApplyAll(s, es))
    decreases |es|
  {
    if |es| > 0 {
      ApplyAllInRange(s, es[..|es| - 1]);
    }
  }

  /** The dictionary `get` publishes. */
  datatype Snapshot = Snapshot(time: real, frequency: real, connected: bool, pad: PadState)

  class Controller {
    var now: real
    var frequency: real
    var connected: bool

    var x: bool
    var v: bool
    var d: bool
    var o: bool
    var l1: bool
    var r1: bool
    var share: bool
    var option: bool
    var l3: bool
    var r3: bool
    var ps: bool
    var dpadX: int
    var dpadY: int
    var leftX: real
    var leftY: real
    var rightX: real
    var rightY: real
    var l2: real
    var r2: real

    var data: Snapshot

    /** The controller fields as one value. */
    function State(): PadState
      reads this
    {
      PadState(Button(x), Button(v), Button(d), Button(o), Button(l1), Button(r1), Button(share), Button(option),
               Button(l3), Button(r3), Button(ps), dpadX, dpadY, leftX, leftY, rightX, rightY, l2, r2)
    }

    constructor ()
      ensures State() == Released && now == 0.0 && frequency == 0.0 && !connected
      ensures data == Snapshot(0.0, 0.0, false, Released)
    {
      now, frequency, connected := 0.0, 0.0, false;
      x, v, d, o, l1, r1, share, option, l3, r3, ps := false, false, false, false, false, false, false, false, false, false, false;
      dpadX, dpadY := 0, 0;
      leftX, leftY, rightX, rightY, l2, r2 := 0.0, 0.0, 0.0, 0.0, 0.0, 0.0;
      data := Snapshot(0.0, 0.0, false, Released);
    }

    /** The body of the event loop in `_process_inputs` for one event. */
    method HandleEvent(e: Event)
      modifies this`x, this`v, this`d, this`o, this`l1, this`r1, this`share, this`option, this`l3, this`r3, this`ps
      modifies this`dpadX, this`dpadY, this`leftX, this`leftY, this`rightX, this`rightY, this`l2, this`r2
      ensures State() == Apply(old(State()), e)
    {
      if e.kind == EV_KEY {
        HandleKey(e);
      } else if e.kind == EV_ABS {
        HandleAbs(e);
      }
    }

    /** A button event: the flag of a mapped code becomes `value != 0`. */
    method HandleKey(e: Event)
      modifies this`x, this`v, this`d, this`o, this`l1, this`r1, this`share, this`option, this`l3, this`r3, this`ps
      ensures State() == ApplyKey(old(State()), e.code, e.value)
    {
      if e.code == BTN_SOUTH || e.code == BTN_EAST || e.code == BTN_NORTH || e.code == BTN_WEST
         || e.code == BTN_TL || e.code == BTN_TR {
        HandleFrontKey(e);
      } else {
        HandleMiddleKey(e);
      }
    }

    /** The four face buttons and the two shoulder buttons. */
    method HandleFrontKey(e: Event)
      requires e.code == BTN_SOUTH || e.code == BTN_EAST || e.code == BTN_NORTH || e.code == BTN_WEST
         || e.code == BTN_TL || e.code == BTN_TR
      modifies this`x, this`v, this`d, this`o, this`l1, this`r1
      ensures State() == ApplyKey(old(State()), e.code, e.value)
    {
      if e.code == BTN_SOUTH { x := e.value != 0; }
      else if e.code == BTN_EAST { o := e.value != 0; }
      else if e.code == BTN_NORTH { d := e.value != 0; }
      else if e.code == BTN_WEST { v := e.value != 0; }
      else if e.code == BTN_TL { l1 := e.value != 0; }
      else { r1 := e.value != 0; }
    }

    /** Share, options, the stick clicks and the PS button; any other key code changes nothing. */
    method HandleMiddleKey(e: Event)
      requires !(e.code == BTN_SOUTH || e.code == BTN_EAST || e.code == BTN_NORTH || e.code == BTN_WEST
         || e.code == BTN_TL || e.code == BTN_TR)
      modifies this`share, this`option, this`l3, this`r3, this`ps
      ensures State() == ApplyKey(old(State()), e.code, e.value)
    {
      if e.code == BTN_SELECT { share := e.value != 0; }
      else if e.code == BTN_START { option := e.value != 0; }
      else if e.code == BTN_THUMBL { l3 := e.value != 0; }
      else if e.code == BTN_THUMBR { r3 := e.value != 0; }
      else if e.code == BTN_MODE { ps := e.value != 0; }
    }

    /** An absolute-axis event: a stick, a trigger or the d-pad. */
    method HandleAbs(e: Event)
      modifies this`dpadX, this`dpadY, this`leftX, this`leftY, this`rightX, this`rightY, this`l2, this`r2
      ensures State() == ApplyAbs(old(State()), e.code, e.value)
    {
      if e.code == ABS_X {
        leftX := Stick(e.value, LeftXOffset);
        if (AxisMax - AxisMin) - (AxisMax - AxisMin) / 2.0 + 5.0 > leftX > (AxisMax - AxisMin) - (AxisMax - AxisMin) / 2.0 - 5.0 {
          leftX := (AxisMax - AxisMin) / 2.0;
        }
      }
      else if e.code == ABS_Y { leftY := Stick(e.value, LeftYOffset); }
      else if e.code == ABS_RX { rightX := Stick(e.value, RightXOffset); }
      else if e.code == ABS_RY { rightY := Stick(e.value, RightYOffset); }
      else if e.code == ABS_Z { l2 := Trigger(e.value, L2Offset); }
      else if e.code == ABS_RZ { r2 := Trigger(e.value, R2Offset); }
      else if e.code == ABS_HAT0X { dpadX := -e.value; }
      else if e.code == ABS_HAT0Y { dpadY := -e.value; }
    }

    /** `_process_inputs` over the events one read of the device returned (none when it was not ready). */
    method ProcessInputs(events: seq<Event>)
      modifies this`x, this`v, this`d, this`o, this`l1, this`r1, this`share, this`option, this`l3, this`r3, this`ps
      modifies this`dpadX, this`dpadY, this`leftX, this`leftY, this`rightX, this`rightY, this`l2, this`r2
      ensures State() == ApplyAll(old(State()), events)
    {
      for i := 0 to |events|
        invariant State() == ApplyAll(old(State()), events[..i])
      {
        HandleEvent(events[i]);
        assert events[..i + 1][..i] == events[..i];
      }
      assert events[..|events|] == events;
    }

    /** `get()`: publishes and returns a snapshot of the time, the rate, the link flag and every field. */
    method Get() returns (snapshot: Snapshot)
      modifies this`data
      ensures snapshot == data && snapshot == Snapshot(now, frequency, connected, State())
    {
      data := Snapshot(now, frequency, connected, State());
      snapshot := data;
    }
  }
}
