/**
 * The frame the driver carries: `struct can_frame` from linux/can.h, as an
 * opaque value. The driver copies frames in and out of its queue and never
 * inspects them, so nothing here relates the length code to the payload.
 */
module CanFrames {
  /** An unsigned 8-bit value. */
  newtype U8 = x: int | 0 <= x < 0x100

  /** An unsigned 32-bit value, the width of `can_id`. */
  newtype U32 = x: int | 0 <= x < 0x1_0000_0000

  /** The fixed eight-byte data buffer of a classic CAN frame. */
  type Payload = s: seq<U8> | |s| == 8 witness [0, 0, 0, 0, 0, 0, 0, 0]

  /** Identifier, data length code (not checked against 8) and data buffer. */
  datatype CanFrame = CanFrame(canId: U32, dlc: U8, data: Payload)

  /** `sizeof(struct can_frame)` on Linux: the byte count one read or write must move. */
  const CAN_FRAME_SIZE := 16
}
