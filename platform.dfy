/**
 * Machine-level vocabulary shared by the pipeline model: the C integer widths
 * the firmware uses, an Option type, and the outcomes of the RTOS and
 * network-stack calls that the model receives as inputs instead of performing.
 */
module Platform {

  type UInt8 = x: int | 0 <= x < 0x100
  type UInt16 = x: int | 0 <= x < 0x1_0000
  type UInt32 = x: int | 0 <= x < 0x1_0000_0000
  type Int16 = x: int | -0x8000 <= x < 0x8000

  const UINT32_MAX: UInt32 := 0xFFFF_FFFF

  /** `x++` on a uint32_t: wraps from 0xFFFFFFFF to 0. */
  function Inc32(x: UInt32): (r: UInt32)
  {
    (x + 1) % 0x1_0000_0000
  }

  /** The implicit conversion of a uint32_t into a uint16_t field (keeps the low 16 bits). */
  function Low16(x: UInt32): (r: UInt16)
  {
    x % 0x1_0000
  }

  datatype Option<+T> = None | Some(value: T)

  /**
   * Result of a ThreadX or NetX Duo service call. Only the distinctions the
   * firmware branches on are kept; every other code is an opaque `Failed`.
   */
  datatype Status = Success | PtrError | NotEnabled | Failed(code: nat)

  /** Result of a bounded-wait `tx_queue_receive`: an item, a timeout, or another error. */
  datatype Receive<T> = Received(item: T) | QueueEmpty | QueueError(code: nat)

  /** A UDP datagram handed to the network stack: destination address and port, and payload. */
  datatype Datagram<T> = Datagram(ip: UInt32, port: UInt32, payload: T)

  /** Incrementing a uint32 counter and truncating it to 16 bits commute. */
  lemma Low16OfInc32(x: UInt32)
    ensures Low16(Inc32(x)) == (Low16(x) + 1) % 0x1_0000
  {
    if x == UINT32_MAX {
      assert Inc32(x) == 0;
    } else {
      assert Inc32(x) == x + 1;
    }
  }
}
