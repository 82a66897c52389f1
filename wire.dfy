/** Bytes and the frame markers shared by the motor firmware and the host. */
module Wire {
  newtype byte = b: int | 0 <= b < 256

  /** Start-of-text marker that opens every report frame. */
  const STX: byte := 0x02
  /** End-of-text marker that closes every report frame. */
  const ETX: byte := 0x03
  /** Two 32-bit floats: position then velocity. */
  const PAYLOAD_LEN: nat := 8
  /** Marker, payload, marker. */
  const FRAME_LEN: nat := 10
}
