/**
 * The serial link between the motor firmware (Motor_Code/src/main.cpp),
 * which writes report frames, and the host (Brain_Code/motor.py), which
 * scans its input for them. The lemmas here connect the two sides.
 */
module SerialLink {
  import opened Wire
  import opened Options
  import opened Motor
  import opened MotorFirmware

  /** Round trip: the host's scanner returns exactly the eight payload bytes of a frame the firmware wrote, whatever follows it. */
  lemma FrameRoundTrip(position: seq<byte>, velocity: seq<byte>, rest: seq<byte>)
    requires |position| == 4 && |velocity| == 4
    ensures Scan(Frame(position, velocity) + rest) == Some(position + velocity)
  {
    var s := Frame(position, velocity) + rest;
    assert s[0] == STX && s[9] == ETX;
    assert s[1..9] == position + velocity;
  }

  /** Bytes other than the start marker in front of the stream are skipped one by one. */
  lemma {:induction false} SkipsNoise(noise: seq<byte>, s: seq<byte>)
    requires forall i :: 0 <= i < |noise| ==> noise[i] != STX
    ensures Scan(noise + s) == Scan(s)
    decreases |noise|
  {
    if |noise| > 0 {
      var t := noise + s;
      assert t[0] == noise[0] && t[1..] == noise[1..] + s;
      assert Scan(t) == Scan(t[1..]);
      SkipsNoise(noise[1..], s);
    } else {
      assert noise + s == s;
    }
  }

  /** The bytes of a run of reports, oldest first. */
  function Reports(positions: seq<seq<byte>>, velocities: seq<seq<byte>>): seq<byte>
    requires |positions| == |velocities|
    requires forall i :: 0 <= i < |positions| ==> |positions[i]| == 4 && |velocities[i]| == 4
    decreases |positions|
  {
    if |positions| == 0 then []
    else Frame(positions[0], velocities[0]) + Reports(positions[1..], velocities[1..])
  }

  /**
   * Reading a backlog of reports, possibly behind noise with no start
   * marker, the host takes the oldest one; with no report and no start
   * marker it gets nothing.
   */
  lemma OldestReportWins(noise: seq<byte>, positions: seq<seq<byte>>, velocities: seq<seq<byte>>)
    requires forall i :: 0 <= i < |noise| ==> noise[i] != STX
    requires |positions| == |velocities|
    requires forall i :: 0 <= i < |positions| ==> |positions[i]| == 4 && |velocities[i]| == 4
    ensures |positions| == 0 ==> Scan(noise + Reports(positions, velocities)) == None
    ensures |positions| > 0 ==> Scan(noise + Reports(positions, velocities)) == Some(positions[0] + velocities[0])
  {
    SkipsNoise(noise, Reports(positions, velocities));
    if |positions| > 0 {
      FrameRoundTrip(positions[0], velocities[0], Reports(positions[1..], velocities[1..]));
    }
  }

  /**
   * End to end: when the host's input starts with a report, `get` decodes
   * position from the firmware's four position bytes and velocity from its
   * four velocity bytes, in that order.
   */
  lemma HostDecodesReport(position: seq<byte>, velocity: seq<byte>, rest: seq<byte>, f32: seq<byte> -> real)
    requires |position| == 4 && |velocity| == 4
    ensures Scan(Frame(position, velocity) + rest).Some?
    ensures var p := Scan(Frame(position, velocity) + rest).value;
      f32(p[..4]) == f32(position) && f32(p[4..]) == f32(velocity)
  {
    FrameRoundTrip(position, velocity, rest);
    var p := position + velocity;
    assert p[..4] == position && p[4..] == velocity;
  }
}
