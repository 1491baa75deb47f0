/**
 * Classic CAN frames as the RTCAN socket layer hands them to and takes them
 * from the driver, with the SocketCAN identifier flags and error-frame codes
 * the driver uses.
 */
module CanFrame {

  // Identifier word layout (bit 31 extended, bit 30 remote request).
  const CAN_EFF_FLAG: bv32 := 0x8000_0000
  const CAN_RTR_FLAG: bv32 := 0x4000_0000
  const CAN_SFF_MASK: bv32 := 0x0000_07FF
  const CAN_EFF_MASK: bv32 := 0x1FFF_FFFF

  /** get_can_dlc caps the data length code at this value. */
  const CAN_MAX_DLC: bv8 := 8

  // Error classes carried in the identifier of an error frame.
  const CAN_ERR_CRTL: bv32 := 0x0000_0004
  const CAN_ERR_PROT: bv32 := 0x0000_0008
  const CAN_ERR_BUSOFF: bv32 := 0x0000_0040
  const CAN_ERR_BUSERROR: bv32 := 0x0000_0080

  // Controller problems, data[1].
  const CAN_ERR_CRTL_RX_OVERFLOW: bv8 := 0x01
  const CAN_ERR_CRTL_RX_WARNING: bv8 := 0x04
  const CAN_ERR_CRTL_TX_WARNING: bv8 := 0x08
  const CAN_ERR_CRTL_RX_PASSIVE: bv8 := 0x10
  const CAN_ERR_CRTL_TX_PASSIVE: bv8 := 0x20

  // Protocol violation types, data[2].
  const CAN_ERR_PROT_UNSPEC: bv8 := 0x00
  const CAN_ERR_PROT_FORM: bv8 := 0x02
  const CAN_ERR_PROT_STUFF: bv8 := 0x04
  const CAN_ERR_PROT_BIT0: bv8 := 0x08
  const CAN_ERR_PROT_BIT1: bv8 := 0x10

  // Protocol violation locations, data[3].
  const CAN_ERR_PROT_LOC_CRC_SEQ: bv8 := 0x08
  const CAN_ERR_PROT_LOC_CRC_DEL: bv8 := 0x18
  const CAN_ERR_PROT_LOC_ACK: bv8 := 0x19
  const CAN_ERR_PROT_LOC_ACK_DEL: bv8 := 0x1B

  /** The eight payload bytes of a frame buffer. */
  type Payload = s: seq<bv8> | |s| == 8 witness [0, 0, 0, 0, 0, 0, 0, 0]

  /** A frame buffer: identifier word, data length code and payload. */
  datatype Frame = Frame(canId: bv32, dlc: bv8, data: Payload)

  const ZeroPayload: Payload := [0, 0, 0, 0, 0, 0, 0, 0]

  /** An on-stack frame buffer, taken as zero-initialised. */
  const ZeroFrame: Frame := Frame(0, 0, ZeroPayload)

  predicate IsExtended(f: Frame) { f.canId & CAN_EFF_FLAG != 0 }
  predicate IsRemote(f: Frame) { f.canId & CAN_RTR_FLAG != 0 }

  /** A zero-initialised error frame with the given class and payload bytes set. */
  function ErrorFrame(errClass: bv32, d1: bv8, d2: bv8, d3: bv8, d6: bv8, d7: bv8): (f: Frame)
    ensures f.canId == errClass && f.dlc == 0
    ensures f.data[0] == 0 && f.data[1] == d1 && f.data[2] == d2 && f.data[3] == d3
    ensures f.data[4] == 0 && f.data[5] == 0 && f.data[6] == d6 && f.data[7] == d7
  {
    Frame(errClass, 0, [0, d1, d2, d3, 0, 0, d6, d7])
  }
}
