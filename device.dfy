/**
 * The driver's view of one controller: the logical register file, the
 * 32-object message RAM behind it, and the fields of the driver's private
 * structure and RTCAN device it updates. Every driver operation is a
 * function from one such snapshot to the next; this module holds the
 * register access and interface-transaction primitives they are built from.
 */
module Device {
  import opened CanFrame
  import opened Registers
  import opened MsgObject
  import opened BitTiming

  /** An `unsigned int` counter of the driver's private structure. */
  type U32 = x: int | 0 <= x < 0x1_0000_0000

  const U32_MAX: U32 := 0xFFFF_FFFF

  /** x++ on an unsigned int. */
  function Inc(x: U32): (y: U32)
    ensures x < U32_MAX ==> y == x + 1
    ensures x == U32_MAX ==> y == 0
  {
    if x == U32_MAX then 0 else x + 1
  }

  /** can_state_t, in RTCAN's numeric order. */
  datatype CanState =
    | ErrorActive | ErrorWarning | ErrorPassive | BusOff
    | ScanningBaudrate | Stopped | Sleeping

  /** CAN_STATE_OPERATING: every state before BUS_OFF. */
  predicate Operating(s: CanState)
  {
    s == ErrorActive || s == ErrorWarning || s == ErrorPassive
  }

  /** The transmit admission semaphore: its count and whether it is alive. */
  datatype Sem = Sem(count: int, alive: bool)

  function SemUp(s: Sem): Sem { s.(count := s.count + 1) }
  function SemInit(n: int): Sem { Sem(n, true) }
  function SemDestroy(s: Sem): Sem { s.(alive := false) }

  /** What the driver hands to the socket layer: a received frame or a loopback delivery. */
  datatype Event = Rcv(frame: Frame) | Loopback

  // dev->ctrl_mode bits.
  const CAN_CTRLMODE_LISTENONLY: bv32 := 0x1
  const CAN_CTRLMODE_LOOPBACK: bv32 := 0x2

  /**
   * One snapshot: registers, message RAM, the TX ring counters, the saved
   * status words, the device state, the semaphore, the configuration the
   * driver reads, and the events delivered so far.
   */
  datatype Dev = Dev(
    regs: RegFile,
    ram: Ram,
    txNext: U32,
    txEcho: U32,
    currentStatus: bv16,
    lastStatus: bv16,
    irqStatus: bv16,
    state: CanState,
    sem: Sem,
    ctrlMode: bv32,
    bitTime: BitTime,
    out: seq<Event>)

  function ReadReg(d: Dev, r: RegIndex): bv16 { Get(d.regs, r) }

  function WriteReg(d: Dev, r: RegIndex, v: bv16): Dev { d.(regs := Set(d.regs, r, v)) }

  /** Register k of interface bank `iface`, the register C_CAN_IFACE names. */
  function ReadIf(d: Dev, iface: Iface, k: nat): bv16
    requires k < IF_ENUM_REG_LEN
  {
    IfGet(IfBank(d.regs, iface), k)
  }

  function WriteIf(d: Dev, iface: Iface, k: nat, v: bv16): Dev
    requires k < IF_ENUM_REG_LEN
  {
    d.(regs := SetIfBank(d.regs, iface, IfSet(IfBank(d.regs, iface), k, v)))
  }

  /** c_can_read_reg32 of one of the 32-bit mirror registers. */
  function ReadReg32(d: Dev, r: RegIndex): bv32
    requires IsReg32Low(r)
  {
    Combine32(Get(d.regs, r), Get(d.regs, r + 1))
  }

  /** The nine message words of interface bank `iface`. */
  function Bank(d: Dev, iface: Iface): MsgObj { IfBank(d.regs, iface).bank }

  /** Two snapshots that differ at most in the interface banks and the message RAM. */
  predicate OnlyObjects(a: Dev, b: Dev)
  {
    b == a.(regs := a.regs.(if1 := b.regs.if1, if2 := b.regs.if2), ram := b.ram)
  }

  /** Changes confined to the banks and the RAM compose. */
  lemma OnlyObjectsTrans(a: Dev, b: Dev, c: Dev)
    requires OnlyObjects(a, b) && OnlyObjects(b, c)
    ensures OnlyObjects(a, c)
  {
  }

  /**
   * The transfer the controller performs once the object number is written
   * to COMREQ: with IF_COMM_WR in the command mask the selected words go from
   * the bank into the object, otherwise from the object into the bank.
   */
  function Transfer(d: Dev, iface: Iface, objno: ObjNo): Dev
  {
    var b := IfBank(d.regs, iface);
    var cmd := b.commsk;
    var obj := d.ram[objno - 1];
    if cmd & IF_COMM_WR != 0 then
      d.(ram := d.ram[objno - 1 := PutInto(b.bank, obj, cmd)])
    else
      d.(regs := SetIfBank(d.regs, iface, b.(bank := GetBank(b.bank, obj, cmd))),
         ram := d.ram[objno - 1 := GetObj(obj, cmd)])
  }

  /** c_can_object_get: command mask, then object number, then the transfer. */
  function ObjectGet(d: Dev, iface: Iface, objno: ObjNo, mask: bv16): Dev
  {
    var d1 := WriteIf(d, iface, IF_COMMSK, mask);
    var d2 := WriteIf(d1, iface, IF_COMREQ, objno as bv16);
    Transfer(d2, iface, objno)
  }

  /** c_can_object_put: as a get, with IF_COMM_WR added to the command mask. */
  function ObjectPut(d: Dev, iface: Iface, objno: ObjNo, mask: bv16): Dev
  {
    var d1 := WriteIf(d, iface, IF_COMMSK, IF_COMM_WR | mask);
    var d2 := WriteIf(d1, iface, IF_COMREQ, objno as bv16);
    Transfer(d2, iface, objno)
  }

  /**
   * A put stores the bank, as it stood before the put, into the object
   * under the write command mask; the rest of the RAM, the message words of
   * the bank, the registers outside the banks and every driver field stay
   * as they were.
   */
  lemma ObjectPutStores(d: Dev, iface: Iface, objno: ObjNo, mask: bv16)
    ensures ObjectPut(d, iface, objno, mask).ram ==
            d.ram[objno - 1 := PutInto(Bank(d, iface), d.ram[objno - 1], IF_COMM_WR | mask)]
    ensures Bank(ObjectPut(d, iface, objno, mask), iface) == Bank(d, iface)
    ensures OnlyObjects(d, ObjectPut(d, iface, objno, mask))
  {
    if iface == 0 {
    } else {
    }
  }

  /**
   * A get without IF_COMM_WR loads the selected words of the object into
   * the bank and applies the get's side effects to the object only.
   */
  lemma ObjectGetLoads(d: Dev, iface: Iface, objno: ObjNo, mask: bv16)
    requires mask & IF_COMM_WR == 0
    ensures ObjectGet(d, iface, objno, mask).ram == d.ram[objno - 1 := GetObj(d.ram[objno - 1], mask)]
    ensures Bank(ObjectGet(d, iface, objno, mask), iface) == GetBank(Bank(d, iface), d.ram[objno - 1], mask)
    ensures OnlyObjects(d, ObjectGet(d, iface, objno, mask))
  {
    if iface == 0 {
    } else {
    }
  }

  /** What a put leaves in the command registers of its bank. */
  lemma ObjectPutCommand(d: Dev, iface: Iface, objno: ObjNo, mask: bv16)
    ensures IfBank(ObjectPut(d, iface, objno, mask).regs, iface).commsk == IF_COMM_WR | mask
    ensures IfBank(ObjectPut(d, iface, objno, mask).regs, iface).comreq == objno as bv16
  {
    if iface == 0 {
    } else {
    }
  }

  /** MIN_TIMEOUT_VALUE: how many BUSY reads a transaction allows. */
  const MIN_TIMEOUT_VALUE: nat := 6

  /**
   * c_can_msg_obj_is_busy over the COMREQ values successive reads return:
   * the counter starts at 6 and drops on each busy read, reading stops at
   * the first idle value or when the counter is 0, and a timeout is
   * reported iff the counter reached 0, that is iff all six reads were busy.
   */
  method MsgObjIsBusy(readings: seq<bv16>) returns (timedOut: bool, polls: nat)
    requires |readings| >= MIN_TIMEOUT_VALUE
    ensures 1 <= polls <= MIN_TIMEOUT_VALUE
    ensures forall i :: 0 <= i < polls - 1 ==> readings[i] & IF_COMR_BUSY != 0
    ensures timedOut <==> forall i :: 0 <= i < MIN_TIMEOUT_VALUE ==> readings[i] & IF_COMR_BUSY != 0
    ensures !timedOut ==> readings[polls - 1] & IF_COMR_BUSY == 0
    ensures timedOut ==> polls == MIN_TIMEOUT_VALUE
  {
    var count := MIN_TIMEOUT_VALUE;
    polls := 0;
    while count != 0
      invariant polls + count == MIN_TIMEOUT_VALUE
      invariant forall i :: 0 <= i < polls ==> readings[i] & IF_COMR_BUSY != 0
    {
      var v := readings[polls];
      polls := polls + 1;
      if v & IF_COMR_BUSY == 0 {
        break;
      }
      count := count - 1;
    }
    timedOut := count == 0;
  }

  // CTRL register bits.
  const CONTROL_TEST: bv16 := 0x80
  const CONTROL_CCE: bv16 := 0x40
  const CONTROL_ENABLE_AR: bv16 := 0x00
  const CONTROL_EIE: bv16 := 0x08
  const CONTROL_SIE: bv16 := 0x04
  const CONTROL_IE: bv16 := 0x02
  const CONTROL_INIT: bv16 := 0x01

  /** SIE | EIE | IE, the bits c_can_enable_all_interrupts sets or clears. */
  const CONTROL_IRQS: bv16 := 0x0E

  /** c_can_enable_all_interrupts: read-modify-write of the three interrupt enables in CTRL. */
  function EnableAllInterrupts(d: Dev, enable: bool): Dev
  {
    var ctrl := ReadReg(d, CTRL);
    WriteReg(d, CTRL, if enable then ctrl | CONTROL_IRQS else ctrl & !CONTROL_IRQS)
  }

  /**
   * Only SIE, EIE and IE change, to all set or all clear, and only the CTRL
   * register is written.
   */
  lemma EnableAllInterruptsBits(d: Dev, enable: bool)
    ensures EnableAllInterrupts(d, enable).regs.ctrl & !CONTROL_IRQS == d.regs.ctrl & !CONTROL_IRQS
    ensures EnableAllInterrupts(d, enable).regs.ctrl & CONTROL_IRQS == (if enable then CONTROL_IRQS else 0)
    ensures EnableAllInterrupts(d, enable) == d.(regs := d.regs.(ctrl := EnableAllInterrupts(d, enable).regs.ctrl))
  {
  }
}
